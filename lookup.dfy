/**
 Locating a reference series by asset id inside the batched close window:
 `np.where((assets == sid) == True)[0][0]` picks the first position whose id
 equals `sid`, and `np.reshape(close[:, i], (-1, 1))` turns that column into
 a one-column series of the same length. When no id matches, indexing `[0]`
 into the empty match array raises `IndexError`; here that is an explicit
 `IndexError` result.
 */
module Lookup {
  import opened Matrix

  /** The value of a step that can fail the way the source's `[0]` fails. */
  datatype Result<T> = Ok(value: T) | IndexError(sid: int) {
    predicate IsFailure() {
      IndexError?
    }

    function PropagateFailure<U>(): Result<U>
      requires IndexError?
    {
      IndexError(sid)
    }

    function Extract(): T
      requires Ok?
    {
      value
    }
  }

  /** `i` is the smallest position of `assets` holding `sid`. */
  predicate IsFirstMatch(assets: seq<int>, sid: int, i: nat) {
    i < |assets| && assets[i] == sid && forall j :: 0 <= j < i ==> assets[j] != sid
  }

  /**
   `np.where(assets == sid)[0]`: every position holding `sid`, in increasing
   order, and nothing else.
   */
  function Where(assets: seq<int>, sid: int): (r: seq<nat>)
    ensures forall p :: 0 <= p < |r| ==> r[p] < |assets| && assets[r[p]] == sid
    ensures forall i :: 0 <= i < |assets| && assets[i] == sid ==> i in r
    ensures forall p, q :: 0 <= p < q < |r| ==> r[p] < r[q]
  {
    if |assets| == 0 then []
    else
      var last := |assets| - 1;
      Where(assets[..last], sid) + (if assets[last] == sid then [last] else [])
  }

  /** `np.where(assets == sid)[0][0]`, on an id that is present: the first match, found left to right. */
  function FirstMatch(assets: seq<int>, sid: int): (i: nat)
    requires sid in assets
    ensures IsFirstMatch(assets, sid, i)
  {
    if assets[0] == sid then 0 else 1 + FirstMatch(assets[1..], sid)
  }

  /** The first match is the head of `np.where`'s list of matches. */
  lemma FirstMatchIsFirstOfWhere(assets: seq<int>, sid: int)
    requires sid in assets
    ensures |Where(assets, sid)| > 0 && Where(assets, sid)[0] == FirstMatch(assets, sid)
  {
    var matches, i := Where(assets, sid), FirstMatch(assets, sid);
    assert i in matches;
  }

  /**
   `prices_by_sid(assets, close, sid)`: the column of `close` at the first
   position of `sid` in `assets`, as a one-column series of the same row
   count; `IndexError` exactly when `sid` does not occur in `assets`.
   */
  function PricesBySid(assets: seq<int>, close: Matrix, sid: int): (r: Result<Matrix>)
    requires Rect(close, |assets|)
    ensures r.Ok? <==> sid in assets
    ensures r.IndexError? ==> r.sid == sid
    ensures r.Ok? ==> |r.value| == |close| && Rect(r.value, 1)
    ensures r.Ok? ==> forall k :: 0 <= k < |close| ==> r.value[k] == [close[k][FirstMatch(assets, sid)]]
  {
    if sid !in assets then IndexError(sid)
    else Ok(Column(close, FirstMatch(assets, sid)))
  }

  /**
   Extraction is determined by the first match alone: whatever position `i`
   is the smallest one holding `sid`, the result is column `i`.
   */
  lemma PricesBySidIsFirstColumn(assets: seq<int>, close: Matrix, sid: int, i: nat)
    requires Rect(close, |assets|)
    requires IsFirstMatch(assets, sid, i)
    ensures PricesBySid(assets, close, sid) == Ok(Column(close, i))
  {
  }
}
