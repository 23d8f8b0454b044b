/** Go's strings.TrimSpace, as far as the spec checks use it. */
module TrimmedText {
  predicate IsSpace(c: char) {
    || c in {'\t', '\n', '\U{000B}', '\U{000C}', '\r', ' ', '\U{0085}', '\U{00A0}', '\U{1680}'}
    || '\U{2000}' <= c <= '\U{200A}'
    || c in {'\U{2028}', '\U{2029}', '\U{202F}', '\U{205F}', '\U{3000}'}
  }

  function TrimLeft(s: string): string {
    if s != "" && IsSpace(s[0]) then TrimLeft(s[1..]) else s
  }

  function TrimRight(s: string): string {
    if s != "" && IsSpace(s[|s| - 1]) then TrimRight(s[..|s| - 1]) else s
  }

  function TrimSpace(s: string): string {
    TrimRight(TrimLeft(s))
  }

  predicate Blank(s: string) {
    TrimSpace(s) == ""
  }

  /** t is s without white space at either end, and with everything in between. */
  ghost predicate Trimmed(s: string, t: string) {
    exists i, j :: 0 <= i <= j <= |s| && TrimmedTo(s, t, i, j)
  }

  ghost predicate TrimmedTo(s: string, t: string, i: nat, j: nat)
    requires i <= j <= |s|
  {
    && t == s[i..j]
    && (forall n :: 0 <= n < i || j <= n < |s| ==> IsSpace(s[n]))
    && (t != "" ==> !IsSpace(t[0]) && !IsSpace(t[|t| - 1]))
  }

  lemma {:induction false} TrimLeftIs(s: string) returns (i: nat)
    ensures i <= |s| && TrimLeft(s) == s[i..] && (forall n :: 0 <= n < i ==> IsSpace(s[n]))
    ensures i < |s| ==> !IsSpace(s[i])
  {
    i := 0;
    if s != "" && IsSpace(s[0]) {
      var rest := TrimLeftIs(s[1..]);
      i := rest + 1;
      assert forall n :: 1 <= n < i ==> s[n] == s[1..][n - 1];
    }
  }

  lemma {:induction false} TrimRightIs(s: string) returns (j: nat)
    ensures j <= |s| && TrimRight(s) == s[..j] && (forall n :: j <= n < |s| ==> IsSpace(s[n]))
    ensures j > 0 ==> !IsSpace(s[j - 1])
  {
    j := |s|;
    if s != "" && IsSpace(s[|s| - 1]) {
      j := TrimRightIs(s[..|s| - 1]);
    }
  }

  /** There is only one way to trim a text. */
  lemma TrimmedOnce(s: string, t: string, i: nat, j: nat, u: string, p: nat, q: nat)
    requires i <= j <= |s| && TrimmedTo(s, t, i, j) && p <= q <= |s| && TrimmedTo(s, u, p, q)
    ensures t == u
  {
    if i < j {
      assert t[0] == s[i] && t[|t| - 1] == s[j - 1];
    }
    if p < q {
      assert u[0] == s[p] && u[|u| - 1] == s[q - 1];
    }
  }

  /** TrimSpace drops the white space at both ends and nothing else. */
  lemma TrimSpaceIs(s: string, t: string)
    ensures t == TrimSpace(s) <==> Trimmed(s, t)
  {
    var i := TrimLeftIs(s);
    var j := TrimRightIs(s[i..]);
    assert forall n :: i + j <= n < |s| ==> s[n] == s[i..][n - i];
    assert TrimmedTo(s, TrimSpace(s), i, i + j);
    if Trimmed(s, t) {
      var p, q :| 0 <= p <= q <= |s| && TrimmedTo(s, t, p, q);
      TrimmedOnce(s, t, p, q, TrimSpace(s), i, i + j);
    }
  }

  lemma {:induction false} TrimRightEmpty(s: string)
    ensures TrimRight(s) == "" <==> forall i :: 0 <= i < |s| ==> IsSpace(s[i])
  {
    if s != "" && IsSpace(s[|s| - 1]) {
      TrimRightEmpty(s[..|s| - 1]);
    }
  }

  /** A text is blank exactly when it holds nothing but white space. */
  lemma {:induction false} BlankMeansOnlySpace(s: string)
    ensures Blank(s) <==> forall i :: 0 <= i < |s| ==> IsSpace(s[i])
    decreases |s|
  {
    if s != "" && IsSpace(s[0]) {
      BlankMeansOnlySpace(s[1..]);
      assert forall i :: 1 <= i < |s| ==> s[i] == s[1..][i - 1];
    } else {
      TrimRightEmpty(s);
    }
  }
}
