/** Text as ECMAScript sees it. */
module JsText {

  /** White space as the trim functions see it. */
  predicate IsSpace(c: char) {
    || '\t' <= c <= '\r'
    || c == ' ' || c == '\U{00A0}' || c == '\U{1680}' || '\U{2000}' <= c <= '\U{200A}'
    || c == '\U{2028}' || c == '\U{2029}' || c == '\U{202F}' || c == '\U{205F}' || c == '\U{3000}' || c == '\U{FEFF}'
  }

  /** Nothing is left after trimming. */
  predicate IsBlank(t: string) {
    forall k :: 0 <= k < |t| ==> IsSpace(t[k])
  }

  /** The text without the white space at its two ends. */
  function Trim(t: string): (r: string)
    ensures r != [] ==> !IsSpace(r[0]) && !IsSpace(r[|r| - 1])
    ensures r == [] <==> IsBlank(t)
    ensures |r| <= |t|
  {
    if t == [] then []
    else if IsSpace(t[0]) then assert forall k :: 0 < k < |t| ==> t[k] == t[1..][k - 1]; Trim(t[1..])
    else if IsSpace(t[|t| - 1]) then Trim(t[..|t| - 1])
    else t
  }

  /** The text from its first to its last character that is no white space. */
  ghost predicate Trims(t: string, r: string) {
    exists i, j :: 0 <= i <= j <= |t| && Cuts(t, i, j, r)
  }

  ghost predicate Cuts(t: string, i: nat, j: nat, r: string)
    requires i <= j <= |t|
  {
    && r == t[i..j]
    && (forall k :: 0 <= k < i || j <= k < |t| ==> IsSpace(t[k]))
    && (i < j ==> !IsSpace(t[i]) && !IsSpace(t[j - 1]))
  }

  lemma CutsAfter(t: string, i: nat, j: nat, r: string)
    requires t != [] && IsSpace(t[0]) && i <= j <= |t| - 1 && Cuts(t[1..], i, j, r)
    ensures Cuts(t, i + 1, j + 1, r)
  {
    hide IsSpace;
    var later := t[1..];
    assert forall k :: 1 <= k < |t| ==> t[k] == later[k - 1];
    assert later[i..j] == t[i + 1..j + 1];
  }

  lemma CutsBefore(t: string, i: nat, j: nat, r: string)
    requires t != [] && IsSpace(t[|t| - 1]) && i <= j <= |t| - 1 && Cuts(t[..|t| - 1], i, j, r)
    ensures Cuts(t, i, j, r)
  {
    hide IsSpace;
    var front := t[..|t| - 1];
    assert forall k :: 0 <= k < |front| ==> t[k] == front[k];
    assert front[i..j] == t[i..j];
  }

  lemma {:induction false} TrimTrims(t: string)
    ensures Trims(t, Trim(t))
  {
    if t == [] {
      assert Cuts(t, 0, 0, t);
    } else if IsSpace(t[0]) {
      TrimTrims(t[1..]);
      hide Cuts; hide IsSpace;
      var i, j :| 0 <= i <= j <= |t[1..]| && Cuts(t[1..], i, j, Trim(t[1..]));
      CutsAfter(t, i, j, Trim(t[1..]));
    } else if IsSpace(t[|t| - 1]) {
      var front := t[..|t| - 1];
      TrimTrims(front);
      hide Cuts; hide IsSpace;
      var i, j :| 0 <= i <= j <= |front| && Cuts(front, i, j, Trim(front));
      CutsBefore(t, i, j, Trim(front));
    } else {
      assert t[0..|t|] == t && Cuts(t, 0, |t|, t);
    }
  }

  /** Nothing else is. */
  lemma TrimsOnce(t: string, r: string, q: string)
    requires Trims(t, r) && Trims(t, q)
    ensures r == q
  {
    var i, j :| 0 <= i <= j <= |t| && Cuts(t, i, j, r);
    var m, n :| 0 <= m <= n <= |t| && Cuts(t, m, n, q);
    if i < j && m < n { assert i == m && j == n; }
  }
}
