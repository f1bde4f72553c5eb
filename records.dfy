/** Values as they cross between the UI and the record-storage backend, the
    JavaScript `||` defaults the entity services apply to backend columns, and
    the order a newly created record is given. */
module Records {

  /** A column or an input field that may be missing: `None` stands for both
      `undefined` and `null` where the services do not tell them apart. */
  datatype Option<+T> = None | Some(value: T)

  /** A literal in a request payload: `null`, a boolean, an integer or a string. */
  datatype Cell = Null | Bool(b: bool) | Int(i: int) | Text(s: string)

  /** A text column or input that JavaScript treats as falsy: missing, null or ''. */
  predicate Blank(raw: Option<string>) {
    raw.None? || raw.value == ""
  }

  /** `raw || fallback` on a text column: an absent or empty string falls back. */
  function TextOr(raw: Option<string>, fallback: string): (v: string)
    ensures !Blank(raw) ==> v == raw.value
    ensures Blank(raw) ==> v == fallback
  {
    if raw.Some? && raw.value != "" then raw.value else fallback
  }

  /** `raw || null` on a nullable text column: absent and empty both become null. */
  function TextOrNull(raw: Option<string>): (v: Option<string>)
    ensures v.Some? <==> !Blank(raw)
    ensures v.Some? ==> v == raw
  {
    if raw.Some? && raw.value != "" then raw else None
  }

  /** `raw || false` on a boolean column. */
  function FlagOr(raw: Option<bool>): (v: bool)
    ensures v <==> raw == Some(true)
  {
    if raw.Some? && raw.value then raw.value else false
  }

  /** `raw || 0` on a numeric column: absent and zero both give 0. */
  function NumberOr(raw: Option<int>): (v: int)
    ensures raw.Some? ==> v == raw.value
    ensures raw.None? ==> v == 0
  {
    if raw.Some? && raw.value != 0 then raw.value else 0
  }

  /** `column` is in an update patch exactly when the input field was given
      (was not `undefined`), and then holds the given value. */
  predicate Sets<K(!new)>(patch: map<K, Cell>, column: K, given: Option<Cell>) {
    (column in patch <==> given.Some?) && (given.Some? ==> patch[column] == given.value)
  }

  /** One step of building a patch: `if (field !== undefined) patch[column] = field`.
      Every other column is left as it was. */
  function Put<K(!new)>(patch: map<K, Cell>, column: K, given: Option<Cell>): (r: map<K, Cell>)
    ensures given.Some? ==> column in r && r[column] == given.value
    ensures given.None? ==> r == patch
    ensures forall k :: k != column ==> (k in r <==> k in patch)
    ensures forall k :: k != column && k in r ==> r[k] == patch[k]
  {
    if given.Some? then patch[column := given.value] else patch
  }

  /** The cell an input field contributes to a patch, by field type: the
      outer `None` is a field left `undefined` (no cell), an inner `None` an
      explicit null (a `Null` cell). */
  function NullableTextCell(v: Option<Option<string>>): Option<Cell> {
    match v
    case None => None
    case Some(None) => Some(Null)
    case Some(Some(s)) => Some(Text(s))
  }

  function NullableFlagCell(v: Option<Option<bool>>): Option<Cell> {
    match v
    case None => None
    case Some(None) => Some(Null)
    case Some(Some(b)) => Some(Bool(b))
  }

  function NullableIntCell(v: Option<Option<int>>): Option<Cell> {
    match v
    case None => None
    case Some(None) => Some(Null)
    case Some(Some(n)) => Some(Int(n))
  }

  /** A field that cannot be null by the time it reaches the patch. */
  function IntCell(v: Option<int>): Option<Cell> {
    if v.Some? then Some(Int(v.value)) else None
  }

  /** `Math.max(...orders)` on a non-empty sequence. */
  function Max(orders: seq<int>): (m: int)
    requires |orders| > 0
    ensures forall i :: 0 <= i < |orders| ==> orders[i] <= m
    ensures exists i :: 0 <= i < |orders| && orders[i] == m
  {
    if |orders| == 1 then orders[0]
    else
      var rest := Max(orders[1..]);
      if orders[0] >= rest then orders[0] else rest
  }

  /** The order a new record is created with: one more than the largest order
      of the records currently listed, or 1 when none is listed. */
  function NextOrder(orders: seq<int>): (n: int)
    ensures forall i :: 0 <= i < |orders| ==> orders[i] < n
    ensures |orders| == 0 ==> n == 1
    ensures |orders| > 0 ==> exists i :: 0 <= i < |orders| && orders[i] == n - 1
  {
    var maxOrder := if |orders| > 0 then Max(orders) else 0;
    maxOrder + 1
  }

  /** The new order is the least integer above every listed order. */
  lemma NextOrderIsLeast(orders: seq<int>, k: int)
    requires |orders| > 0
    requires forall i :: 0 <= i < |orders| ==> orders[i] < k
    ensures NextOrder(orders) <= k
  {
    var i :| 0 <= i < |orders| && orders[i] == NextOrder(orders) - 1;
    assert orders[i] < k;
  }
}
