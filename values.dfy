/**
 * Field contents of the order report and the "blank" test that decides which
 * of them become 'N/A'.
 *
 * A Ruby hash built by the report job maps symbol keys to heterogeneous
 * values: strings, numbers, nil, arrays and API resource objects. `Value`
 * carries those; a `Row` is the ordered hash itself (Ruby hashes keep
 * insertion order).
 */
module Values {

  datatype Value =
    | Nil
    | Str(s: string)
    | Num(n: int)
    | List(items: seq<Value>)
    /** An API resource object (an ActiveResource record); never blank. */
    | Resource(attrs: seq<Field>)

  datatype Field = Field(key: string, value: Value)

  type Row = seq<Field>

  /** The literal that replaces every blank field. */
  const NA: Value := Str("N/A")

  /** Unicode White_Space, the characters the POSIX class [[:space:]] matches in a UTF-8 string. */
  predicate IsSpace(c: char) {
    var n := c as int;
    (0x09 <= n <= 0x0D) || n == 0x20 || n == 0x85 || n == 0xA0 || n == 0x1680 ||
    (0x2000 <= n <= 0x200A) || n == 0x2028 || n == 0x2029 || n == 0x202F ||
    n == 0x205F || n == 0x3000
  }

  /**
   * ActiveSupport's `blank?`: nil, a string of whitespace only (the empty
   * string included) and an empty collection are blank; numbers (0 too) and
   * resource objects are not.
   */
  predicate Blank(v: Value) {
    match v
    case Nil => true
    case Str(s) => forall i :: 0 <= i < |s| ==> IsSpace(s[i])
    case Num(_) => false
    case List(items) => |items| == 0
    case Resource(_) => false
  }

  /** The block given to `transform_values`: `v.blank? ? 'N/A' : v`. */
  function NormalizeValue(v: Value): Value {
    if Blank(v) then NA else v
  }

  /** `transform_values` with NormalizeValue: same keys in the same order, each value normalised. */
  function NormalizeRow(row: Row): (r: Row)
    ensures |r| == |row|
    ensures forall i :: 0 <= i < |row| ==> r[i].key == row[i].key
    ensures forall i :: 0 <= i < |row| ==> r[i].value == NormalizeValue(row[i].value)
    ensures forall i :: 0 <= i < |r| ==> !Blank(r[i].value)
  {
    if row == [] then []
    else
      NormalizeValueSpec(row[0].value);
      [Field(row[0].key, NormalizeValue(row[0].value))] + NormalizeRow(row[1..])
  }

  /** The keys of a row, in order (`Hash#keys`). */
  function Keys(row: Row): (ks: seq<string>)
    ensures |ks| == |row|
  {
    seq(|row|, i requires 0 <= i < |row| => row[i].key)
  }

  /** The values of a row, in order (`Hash#values`), as written to one CSV line. */
  function RowValues(row: Row): (vs: seq<Value>)
    ensures |vs| == |row|
  {
    seq(|row|, i requires 0 <= i < |row| => row[i].value)
  }

  /** `Hash#[]`: the value stored under `key`, nil when there is none. */
  function Get(row: Row, key: string): Value {
    if row == [] then Nil
    else if row[0].key == key then row[0].value
    else Get(row[1..], key)
  }

  predicate Distinct(ks: seq<string>) {
    forall i, j :: 0 <= i < j < |ks| ==> ks[i] != ks[j]
  }

  // ---------------------------------------------------------------------
  // Properties of normalisation and lookup
  // ---------------------------------------------------------------------

  /** A blank value becomes 'N/A'; a value that is not blank is kept as it is. */
  lemma NormalizeValueSpec(v: Value)
    ensures Blank(v) <==> NormalizeValue(v) == NA && v != NA
    ensures !Blank(v) ==> NormalizeValue(v) == v
    ensures !Blank(NormalizeValue(v))
  {
    if Blank(v) {
      assert !Blank(NA) by { assert NA.s[0] == 'N'; }
    }
  }

  /** Normalising twice is normalising once. */
  lemma NormalizeRowIdempotent(row: Row)
    ensures NormalizeRow(NormalizeRow(row)) == NormalizeRow(row)
  {
  }

  /** Normalisation keeps the keys and their order. */
  lemma NormalizeRowKeys(row: Row)
    ensures Keys(NormalizeRow(row)) == Keys(row)
  {
  }

  /** With distinct keys, looking up the key at position j finds the value at position j. */
  lemma {:induction false} GetAt(row: Row, j: nat)
    requires j < |row|
    requires forall k :: 0 <= k < j ==> row[k].key != row[j].key
    ensures Get(row, row[j].key) == row[j].value
  {
    if j > 0 {
      assert row[1..][j - 1] == row[j];
      GetAt(row[1..], j - 1);
    }
  }
}
