/** The tag matcher: a bounded trailing window of accepted tokens, suffix-matched
    against the open and close tag sequences. */
module TagMatch {
  import opened Types

  /** The window ends with the pattern: it is at least as long, and its last
      |pat| tokens are the pattern in order. An empty pattern matches every window. */
  predicate EndsWith(w: seq<Token>, pat: seq<Token>)
  {
    |pat| <= |w| && w[|w| - |pat|..] == pat
  }

  /** `ends_with`: reject a pattern longer than the window, then compare the
      pattern with the window's tail from the last element backwards, stopping
      at the first difference. */
  method EndsWithScan(w: seq<Token>, pat: seq<Token>) returns (r: bool)
    ensures r <==> EndsWith(w, pat)
  {
    if |w| < |pat| {
      return false;
    }
    var off := |w| - |pat|;
    var i := |pat| - 1;
    while i >= 0
      invariant -1 <= i < |pat|
      invariant forall j :: i < j < |pat| ==> w[off + j] == pat[j]
    {
      if w[off + i] != pat[i] {
        assert w[off..][i] != pat[i];
        return false;
      }
      i := i - 1;
    }
    assert w[off..] == pat;
    return true;
  }

  /** The `n` most recent tokens of a history `h` (all of it when it is shorter). */
  function Recent(h: seq<Token>, n: nat): (r: seq<Token>)
  {
    if |h| <= n then h else h[|h| - n..]
  }

  /** The window capacity `max_win`: the larger of the two tag lengths, and at least 8. */
  function MaxWin(openLen: nat, closeLen: nat): (m: int)
    ensures 8 <= m && openLen <= m && closeLen <= m
    ensures m == 8 || m == openLen || m == closeLen
  {
    if openLen >= closeLen && openLen >= 8 then openLen
    else if closeLen >= 8 then closeLen
    else 8
  }

  /** The window after `push_tok` appends `t`: the front is dropped once the
      length exceeds `maxWin`. A window within its bound stays within it and
      holds exactly the `maxWin` most recent tokens. */
  function Slide(w: seq<Token>, t: Token, maxWin: int): (r: seq<Token>)
    ensures 0 <= maxWin && |w| <= maxWin ==> |r| <= maxWin && r == Recent(w + [t], maxWin)
    ensures 0 < maxWin ==> |r| > 0 && r[|r| - 1] == t
  {
    var w' := w + [t];
    if |w'| > maxWin then w'[1..] else w'
  }

  /** Keeping only the recent tokens before appending more loses nothing that
      the recent tokens of the whole history would keep. */
  lemma RecentAppend(h: seq<Token>, s: seq<Token>, n: nat)
    ensures Recent(Recent(h, n) + s, n) == Recent(h + s, n)
  {
    if |h| > n {
      var k := |h| - n;
      assert Recent(h, n) + s == (h + s)[k..];
    }
  }

  /** A pattern no longer than the window bound matches the bounded window
      exactly when it matches the whole history: truncation never hides a tag. */
  lemma {:induction false} RecentMatches(h: seq<Token>, pat: seq<Token>, n: nat)
    requires |pat| <= n
    ensures EndsWith(Recent(h, n), pat) <==> EndsWith(h, pat)
  {
    if |h| > n {
      var r := Recent(h, n);
      assert r[|r| - |pat|..] == h[|h| - |pat|..];
    }
  }

  /** Appending one token to a window that ends with `p` gives a window that
      ends with `p + [t]`. */
  lemma {:induction false} EndsWithExtend(w: seq<Token>, p: seq<Token>, t: Token)
    requires EndsWith(w, p)
    ensures EndsWith(w + [t], p + [t])
  {
    assert (w + [t])[|w + [t]| - |p + [t]|..] == w[|w| - |p|..] + [t];
  }

  /** The recent tokens after one more token, then the rest, are the recent
      tokens of the whole history. */
  lemma RecentCons(w: seq<Token>, ts: seq<Token>, n: nat)
    requires ts != []
    ensures Recent(Recent(w + [ts[0]], n) + ts[1..], n) == Recent(w + ts, n)
  {
    RecentAppend(w + [ts[0]], ts[1..], n);
    assert w + [ts[0]] + ts[1..] == w + ts;
  }

  /** A bounded window that ends with the first `k` tokens of `p` ends with the
      first `k + 1` once the next token of `p` is pushed, and with all of `p`
      when that was its last token. */
  lemma ExtendPrefixMatch(w: seq<Token>, p: seq<Token>, k: nat, n: nat)
    requires k < |p| <= n
    requires EndsWith(w, p[..k])
    ensures EndsWith(Recent(w + [p[k]], n), p[..k + 1])
    ensures k + 1 == |p| ==> EndsWith(Recent(w + [p[k]], n), p)
  {
    EndsWithExtend(w, p[..k], p[k]);
    assert p[..k] + [p[k]] == p[..k + 1];
    RecentMatches(w + [p[k]], p[..k + 1], n);
    assert k + 1 == |p| ==> p[..k + 1] == p;
  }

  /** A token of `p` followed by a prefix of what comes after it is a prefix of
      `p` from that token on. */
  lemma ConsPrefix(p: seq<Token>, k: nat, ts: seq<Token>)
    requires k < |p| && ts <= p[k + 1..]
    ensures [p[k]] + ts <= p[k..]
  {
    assert p[k..] == [p[k]] + p[k + 1..];
  }
}
