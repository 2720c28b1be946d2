/** The candidate editor: in-place edits of the host's scored candidate array
    (`llama_token_data_array`), clamping it to one token or biasing one token. */
module Candidates {
  import opened Types

  /** A logit: a finite value, or negative infinity. Float rounding is not modelled. */
  datatype Score = Finite(value: real) | NegInf

  /** `logit += b`: negative infinity absorbs any finite amount. */
  function AddScore(x: Score, b: real): (r: Score)
    ensures r.NegInf? <==> x.NegInf?
    ensures x.Finite? ==> r.value - x.value == b
  {
    match x
    case Finite(v) => Finite(v + b)
    case NegInf => NegInf
  }

  /** One candidate (`llama_token_data`): its token id and its logit. */
  datatype TokenData = TokenData(id: Token, logit: Score)

  /** The logit a clamped candidate receives (`1e9f`, exactly representable). */
  const ForcedLogit: real := 1000000000.0

  /** The host's candidate array: the entries (their count is `size`), the
      index of the selected entry (-1 for none) and the "sorted" flag. */
  class TokenDataArray {
    const data: array<TokenData>
    var selected: int
    var sorted: bool

    constructor (data: array<TokenData>, selected: int, sorted: bool)
      ensures this.data == data && this.selected == selected && this.sorted == sorted
    {
      this.data := data;
      this.selected := selected;
      this.sorted := sorted;
    }
  }

  /** The index of the first entry whose id is `want`, or -1 when there is none. */
  function FindId(s: seq<TokenData>, want: Token): (i: int)
    ensures -1 <= i < |s|
    ensures 0 <= i ==> s[i].id == want && forall j :: 0 <= j < i ==> s[j].id != want
    ensures i == -1 ==> forall j :: 0 <= j < |s| ==> s[j].id != want
  {
    if s == [] then -1
    else if s[0].id == want then 0
    else
      var k := FindId(s[1..], want);
      if k == -1 then -1 else k + 1
  }

  /** The slot `clamp_to_token` selects: the first entry with id `want`, else the
      last slot, else -1 for an empty array. */
  function ClampIndex(s: seq<TokenData>, want: Token): (k: int)
    ensures -1 <= k < |s|
    ensures k == -1 <==> s == []
  {
    var i := FindId(s, want);
    if i == -1 && |s| > 0 then |s| - 1 else i
  }

  /** The entries after `clamp_to_token(want)`: the last slot takes id `want` when
      no entry had it; the selected slot's logit becomes `1e9`, every other -inf. */
  function Clamped(s: seq<TokenData>, want: Token): (r: seq<TokenData>)
    ensures |r| == |s|
  {
    var k := ClampIndex(s, want);
    var missing := FindId(s, want) == -1;
    seq(|s|, i requires 0 <= i < |s| =>
      TokenData(if missing && i == |s| - 1 then want else s[i].id,
                if i == k then Finite(ForcedLogit) else NegInf))
  }

  /** The entries after `bias_token(want, b)`: the first entry with id `want`
      has `b` added to its logit; nothing else changes. */
  function Biased(s: seq<TokenData>, want: Token, b: real): (r: seq<TokenData>)
    ensures |r| == |s|
  {
    var i := FindId(s, want);
    if i == -1 then s else s[i := s[i].(logit := AddScore(s[i].logit, b))]
  }

  /** Clamping a non-empty array forces exactly one choice: the selected slot
      holds `want` with the large logit, every other slot is -inf, and only the
      last slot's id can change, and only when `want` was absent. */
  lemma ClampedSpec(s: seq<TokenData>, want: Token)
    requires s != []
    ensures var k, r := ClampIndex(s, want), Clamped(s, want);
      && 0 <= k < |s|
      && (FindId(s, want) != -1 ==> k == FindId(s, want))
      && (FindId(s, want) == -1 ==> k == |s| - 1)
      && r[k] == TokenData(want, Finite(ForcedLogit))
      && (forall i :: 0 <= i < |s| && i != k ==> r[i].logit == NegInf)
      && (forall i :: 0 <= i < |s| && r[i].id != s[i].id ==> i == |s| - 1 && FindId(s, want) == -1)
  {
  }

  /** Clamping an empty array selects nothing and changes nothing. */
  lemma ClampedEmpty(want: Token)
    ensures ClampIndex([], want) == -1 && Clamped([], want) == []
  {
  }

  /** Clamping twice to the same token is the same as clamping once: the
      selected slot is the first holding `want` after the first clamp. */
  lemma {:induction false} ClampIdempotent(s: seq<TokenData>, want: Token)
    ensures Clamped(Clamped(s, want), want) == Clamped(s, want)
    ensures ClampIndex(Clamped(s, want), want) == ClampIndex(s, want)
  {
    if s != [] {
      ClampedSpec(s, want);
      var k, r := ClampIndex(s, want), Clamped(s, want);
      assert forall j :: 0 <= j < k ==> r[j].id == s[j].id;
      var f := FindId(r, want);
      assert f == k;
      ClampedSpec(r, want);
    }
  }

  /** Biasing touches at most one entry, the first holding `want`, and only its
      logit; with `want` absent it changes nothing. */
  lemma BiasedSpec(s: seq<TokenData>, want: Token, b: real)
    ensures var i, r := FindId(s, want), Biased(s, want, b);
      && (i == -1 ==> r == s)
      && (i != -1 ==> r[i] == TokenData(want, AddScore(s[i].logit, b)))
      && (forall j :: 0 <= j < |s| ==> r[j].id == s[j].id)
      && (forall j :: 0 <= j < |s| && j != i ==> r[j] == s[j])
  {
  }

  /** `clamp_to_token`: find `want` (first match), else overwrite the last slot's
      id; then give the selected slot the large logit and all others -inf, record
      the selection and mark the array unsorted. */
  method ClampToToken(cur: TokenDataArray, want: Token)
    modifies cur, cur.data
    ensures cur.data[..] == Clamped(old(cur.data[..]), want)
    ensures cur.selected == ClampIndex(old(cur.data[..]), want)
    ensures !cur.sorted
  {
    ghost var s := cur.data[..];
    var n := cur.data.Length;
    var idx := -1;
    var i := 0;
    while i < n
      invariant 0 <= i <= n
      invariant forall j :: 0 <= j < i ==> cur.data[j].id != want
    {
      if cur.data[i].id == want {
        idx := i;
        break;
      }
      i := i + 1;
    }
    assert idx == FindId(s, want);
    if idx == -1 && n > 0 {
      cur.data[n - 1] := cur.data[n - 1].(id := want);
      idx := n - 1;
    }
    assert idx == ClampIndex(s, want);
    ghost var target := Clamped(s, want);
    i := 0;
    while i < n
      invariant 0 <= i <= n
      invariant forall j :: 0 <= j < i ==> cur.data[j] == target[j]
      invariant forall j :: i <= j < n ==> cur.data[j].id == target[j].id
    {
      cur.data[i] := cur.data[i].(logit := if i == idx then Finite(ForcedLogit) else NegInf);
      i := i + 1;
    }
    cur.selected := idx;
    cur.sorted := false;
  }

  /** `bias_token`: add `bias` to the logit of the first entry holding `want`;
      the selection and the sorted flag are left as they were. */
  method BiasToken(cur: TokenDataArray, want: Token, bias: real)
    modifies cur.data
    ensures cur.data[..] == Biased(old(cur.data[..]), want, bias)
    ensures cur.selected == old(cur.selected) && cur.sorted == old(cur.sorted)
  {
    ghost var s := cur.data[..];
    var i := 0;
    while i < cur.data.Length
      invariant 0 <= i <= cur.data.Length
      invariant cur.data[..] == s
      invariant forall j :: 0 <= j < i ==> s[j].id != want
    {
      if cur.data[i].id == want {
        cur.data[i] := cur.data[i].(logit := AddScore(cur.data[i].logit, bias));
        assert FindId(s, want) == i;
        return;
      }
      i := i + 1;
    }
  }

  /** The edit `apply` makes to the candidate array. */
  datatype Edit = NoEdit | ClampTo(want: Token) | BiasBy(want: Token, bias: real)

  /** The entries after an edit. */
  function EditData(e: Edit, s: seq<TokenData>): (r: seq<TokenData>)
    ensures |r| == |s|
  {
    match e
    case NoEdit => s
    case ClampTo(want) => Clamped(s, want)
    case BiasBy(want, bias) => Biased(s, want, bias)
  }

  /** The selection index after an edit: only a clamp records one. */
  function EditSelected(e: Edit, s: seq<TokenData>, selected: int): (k: int)
    ensures e.ClampTo? && s != [] ==> 0 <= k < |s|
    ensures !e.ClampTo? ==> k == selected
  {
    if e.ClampTo? then ClampIndex(s, e.want) else selected
  }
}
