/** Shared vocabulary of the controllers: optional values, results, the JSON
    error responses and key-based lookups over the stored collections. */
module Common {

  datatype Option<+T> = None | Some(value: T)

  datatype Result<+R, +E> = Success(value: R) | Failure(error: E)

  /** A `{ success: false, message }` response together with its HTTP status. */
  datatype ApiError = ApiError(status: int, message: string)

  /** Decimal rendering of a record id, used where a message interpolates one. */
  function IdText(n: nat): string
    decreases n
  {
    var digit := ['0', '1', '2', '3', '4', '5', '6', '7', '8', '9'][n % 10];
    if n < 10 then [digit] else IdText(n / 10) + [digit]
  }

  /** Index of the first element whose key is `k`, or -1 when there is none
      (`Array.prototype.findIndex`, and the single-document `findOne` /
      `findById` lookups of the store). */
  function IndexOf<T, K(==)>(s: seq<T>, key: T -> K, k: K): (i: int)
    ensures -1 <= i < |s|
    ensures i == -1 <==> forall j | 0 <= j < |s| :: key(s[j]) != k
    ensures 0 <= i ==> key(s[i]) == k && forall j | 0 <= j < i :: key(s[j]) != k
  {
    if |s| == 0 then -1
    else if key(s[0]) == k then 0
    else
      var i := IndexOf(s[1..], key, k);
      if i == -1 then -1 else i + 1
  }

  /** The first index with key `k` is determined by the two facts that define it. */
  lemma IndexOfIs<T, K>(s: seq<T>, key: T -> K, k: K, i: nat)
    requires i < |s| && key(s[i]) == k
    requires forall j | 0 <= j < i :: key(s[j]) != k
    ensures IndexOf(s, key, k) == i
  {
  }

  /** No two elements share a key. */
  ghost predicate DistinctBy<T, K>(s: seq<T>, key: T -> K) {
    forall i, j | 0 <= i < j < |s| :: key(s[i]) != key(s[j])
  }

  /** `s` without its element at index `k` (`splice(k, 1)`, a single-document delete). */
  function RemoveAt<T>(s: seq<T>, k: nat): (r: seq<T>)
    requires k < |s|
    ensures |r| == |s| - 1
    ensures forall j | 0 <= j < k :: r[j] == s[j]
    ensures forall j | k <= j < |r| :: r[j] == s[j + 1]
  {
    s[..k] + s[k + 1..]
  }

  lemma DistinctByRemoveAt<T, K>(s: seq<T>, key: T -> K, k: nat)
    requires k < |s| && DistinctBy(s, key)
    ensures DistinctBy(RemoveAt(s, k), key)
  {
    var r := RemoveAt(s, k);
    forall i, j | 0 <= i < j < |r| ensures key(r[i]) != key(r[j]) {
      var i', j' := if i < k then i else i + 1, if j < k then j else j + 1;
      assert r[i] == s[i'] && r[j] == s[j'];
    }
  }

  /** The tail of a sequence without repeated keys has none either, and none
      of its keys is the head's. */
  lemma DistinctByTail<T, K>(s: seq<T>, key: T -> K)
    requires |s| > 0 && DistinctBy(s, key)
    ensures DistinctBy(s[1..], key)
    ensures forall x | x in s[1..] :: key(x) != key(s[0])
  {
    forall x | x in s[1..] ensures key(x) != key(s[0]) {
      var i :| 0 <= i < |s[1..]| && s[1..][i] == x;
      assert s[i + 1] == x;
    }
  }

  lemma DistinctByCons<T, K>(x: T, s: seq<T>, key: T -> K)
    requires DistinctBy(s, key)
    requires forall j | 0 <= j < |s| :: key(s[j]) != key(x)
    ensures DistinctBy([x] + s, key)
  {
    var r := [x] + s;
    forall a, b | 0 <= a < b < |r| ensures key(r[a]) != key(r[b]) {
      assert r[b] == s[b - 1];
    }
  }

  lemma DistinctByAppend<T, K>(s: seq<T>, key: T -> K, x: T)
    requires DistinctBy(s, key)
    requires forall j | 0 <= j < |s| :: key(s[j]) != key(x)
    ensures DistinctBy(s + [x], key)
  {
  }

  lemma DistinctByUpdate<T, K>(s: seq<T>, key: T -> K, k: nat, x: T)
    requires k < |s| && DistinctBy(s, key) && key(x) == key(s[k])
    ensures DistinctBy(s[k := x], key)
  {
  }
}
