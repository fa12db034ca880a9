/**
 * The generic table: a column-width lookup with a default, and a cell
 * lookup that prefers the lower-cased column name as the row key.
 */
module TableView {
  import opened Strings

  /** A cell value as a row object may hold it. */
  datatype CellValue = Text(s: string) | Number(n: real) | Boolean(b: bool) | Null

  /** JavaScript truthiness: empty text, zero, false and null are falsy. */
  predicate Truthy(v: CellValue) {
    match v
    case Text(s) => s != ""
    case Number(n) => n != 0.0
    case Boolean(b) => b
    case Null => false
  }

  /** `columnWidths[column] || 'auto'`. */
  function GetColumnWidth(columnWidths: map<string, string>, column: string): (w: string)
    ensures w != ""
    ensures column in columnWidths && columnWidths[column] != "" ==> w == columnWidths[column]
    ensures !(column in columnWidths && columnWidths[column] != "") ==> w == "auto"
  {
    if column in columnWidths && columnWidths[column] != "" then columnWidths[column] else "auto"
  }

  /** A row property read; a missing key reads as `undefined`, which is falsy. */
  predicate TruthyAt(row: map<string, CellValue>, key: string) {
    key in row && Truthy(row[key])
  }

  /** `row[column.toLowerCase()] || row[column] || ''`. */
  function GetCellTemplate(column: string, row: map<string, CellValue>): (v: CellValue)
    ensures TruthyAt(row, ToLower(column)) ==> v == row[ToLower(column)]
    ensures !TruthyAt(row, ToLower(column)) && TruthyAt(row, column) ==> v == row[column]
    ensures !TruthyAt(row, ToLower(column)) && !TruthyAt(row, column) ==> v == Text("")
    ensures Truthy(v) || v == Text("")
  {
    var lower := ToLower(column);
    if TruthyAt(row, lower) then row[lower]
    else if TruthyAt(row, column) then row[column]
    else Text("")
  }

  /** For a column name that is already lower case the two lookups read the same key. */
  lemma LowerCaseColumnReadsOneKey(column: string, row: map<string, CellValue>)
    requires forall k :: 0 <= k < |column| ==> !IsUpper(column[k])
    ensures GetCellTemplate(column, row) == if TruthyAt(row, column) then row[column] else Text("")
  {
    assert ToLower(column) == column;
  }

  /** A mixed-case column shows the lower-case key's value when it has one, whatever the exact key holds. */
  lemma LowerCaseKeyWins(row: map<string, CellValue>)
    requires "symbol" in row && row["symbol"] == Text("AAPL")
    ensures GetCellTemplate("Symbol", row) == Text("AAPL")
  {
    assert ToLower("Symbol") == "symbol";
  }
}
