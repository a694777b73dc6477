/**
  Splitting a URI path on `/` into at most n pieces, as Rust's
  `str::splitn(n, "/")` does: every piece but the last is slash-free, and the
  last keeps whatever remains, slashes included. `Join` puts the pieces back.
*/
module PathSplit {

  const Slash: char := '/'

  /** No slash anywhere in s. */
  predicate SlashFree(s: string)
    decreases |s|
  {
    |s| == 0 || (s[0] != Slash && SlashFree(s[1..]))
  }

  /** A slash-free path has no slash at any position. */
  lemma {:induction false} SlashFreeAt(s: string, k: nat)
    requires SlashFree(s) && k < |s|
    ensures s[k] != Slash
    decreases k
  {
    if k > 0 {
      SlashFreeAt(s[1..], k - 1);
    }
  }

  /** A path with a slash at some position is not slash-free. */
  lemma {:induction false} SlashAt(s: string, k: nat)
    requires k < |s| && s[k] == Slash
    ensures !SlashFree(s)
    decreases k
  {
    if k > 0 {
      SlashAt(s[1..], k - 1);
    }
  }

  /** A path with no slash at any position is slash-free. */
  lemma {:induction false} NoSlashAt(s: string)
    requires forall k :: 0 <= k < |s| ==> s[k] != Slash
    ensures SlashFree(s)
    decreases |s|
  {
    if |s| > 0 {
      assert forall k :: 0 <= k < |s[1..]| ==> s[1..][k] == s[k + 1];
      NoSlashAt(s[1..]);
    }
  }

  /** Position of the first slash of s. */
  function FirstSlash(s: string): (i: nat)
    requires !SlashFree(s)
    ensures i < |s| && s[i] == Slash && SlashFree(s[..i])
  {
    if s[0] == Slash then 0
    else
      var j := FirstSlash(s[1..]);
      assert s[..j + 1] == [s[0]] + s[1..][..j];
      j + 1
  }

  /** `s.splitn(n, "/").collect()`, for the n >= 1 the source uses. */
  function SplitN(s: string, n: nat): (pieces: seq<string>)
    requires n >= 1
    ensures 1 <= |pieces| <= n
    decreases n
  {
    if n == 1 || SlashFree(s) then [s]
    else
      var i := FirstSlash(s);
      [s[..i]] + SplitN(s[i + 1..], n - 1)
  }

  /** The pieces put back together, one slash between neighbours. */
  function Join(pieces: seq<string>): string {
    if |pieces| == 0 then ""
    else if |pieces| == 1 then pieces[0]
    else pieces[0] + [Slash] + Join(pieces[1..])
  }

  /**
    The shape of what splitn returns: between 1 and n pieces, every piece but
    the last slash-free, and the last slash-free too when there are fewer than n.
  */
  predicate SplitShaped(pieces: seq<string>, n: nat) {
    && 1 <= |pieces| <= n
    && (forall k :: 0 <= k < |pieces| - 1 ==> SlashFree(pieces[k]))
    && (|pieces| < n ==> SlashFree(pieces[|pieces| - 1]))
  }

  /** A slash-free piece in front of a shaped split of the rest is a shaped split. */
  lemma ShapedCons(head: string, rest: seq<string>, n: nat)
    requires n >= 2 && SlashFree(head) && SplitShaped(rest, n - 1)
    ensures SplitShaped([head] + rest, n)
  {
    var pieces := [head] + rest;
    assert pieces[|pieces| - 1] == rest[|rest| - 1];
    forall k | 1 <= k < |pieces| - 1
      ensures SlashFree(pieces[k])
    {
      assert pieces[k] == rest[k - 1];
    }
  }

  /** Dropping the first piece of a shaped split leaves a shaped split for one piece fewer. */
  lemma ShapedTail(pieces: seq<string>, n: nat)
    requires SplitShaped(pieces, n) && |pieces| >= 2
    ensures SlashFree(pieces[0]) && SplitShaped(pieces[1..], n - 1)
  {
    var tail := pieces[1..];
    assert tail[|tail| - 1] == pieces[|pieces| - 1];
    forall k | 0 <= k < |tail| - 1
      ensures SlashFree(tail[k])
    {
      assert tail[k] == pieces[k + 1];
    }
  }

  /** What SplitN returns has the shape of a splitn result. */
  lemma {:induction false} SplitNShape(s: string, n: nat)
    requires n >= 1
    ensures SplitShaped(SplitN(s, n), n)
    decreases n
  {
    if n == 1 || SlashFree(s) {
      assert SplitN(s, n) == [s];
    } else {
      var i := FirstSlash(s);
      SplitNShape(s[i + 1..], n - 1);
      SplitNUnfold(s, n);
      ShapedCons(s[..i], SplitN(s[i + 1..], n - 1), n);
    }
  }

  /** Joining a piece in front of at least one other adds one slash. */
  lemma JoinCons(head: string, tail: seq<string>)
    requires |tail| >= 1
    ensures Join([head] + tail) == head + [Slash] + Join(tail)
  {
    assert ([head] + tail)[1..] == tail;
  }

  /** A path with a slash, when n >= 2, splits into what precedes its first slash and the rest split. */
  lemma SplitNUnfold(s: string, n: nat)
    requires n >= 2 && !SlashFree(s)
    ensures SplitN(s, n) == [s[..FirstSlash(s)]] + SplitN(s[FirstSlash(s) + 1..], n - 1)
  {
  }

  /** A path is what lies before one of its slashes, the slash, and what follows. */
  lemma ReassembleAt(s: string, i: nat)
    requires i < |s| && s[i] == Slash
    ensures s[..i] + [Slash] + s[i + 1..] == s
  {
  }

  /** Joining in front of pieces that join to the rest of a path gives the whole path. */
  lemma JoinAtSlash(s: string, i: nat, rest: seq<string>)
    requires i < |s| && s[i] == Slash
    requires |rest| >= 1 && Join(rest) == s[i + 1..]
    ensures Join([s[..i]] + rest) == s
  {
    JoinCons(s[..i], rest);
    ReassembleAt(s, i);
  }

  /** A path that is not split any further is its own single piece. */
  lemma JoinSplitNWhole(s: string, n: nat)
    requires n >= 1 && (n == 1 || SlashFree(s))
    ensures Join(SplitN(s, n)) == s
  {
    assert SplitN(s, n) == [s];
  }

  /** Joining gives the path back if it gives back what follows the first slash. */
  lemma JoinSplitNStep(s: string, n: nat, i: nat)
    requires n >= 2 && !SlashFree(s) && i == FirstSlash(s)
    requires Join(SplitN(s[i + 1..], n - 1)) == s[i + 1..]
    ensures Join(SplitN(s, n)) == s
  {
    SplitNUnfold(s, n);
    JoinAtSlash(s, i, SplitN(s[i + 1..], n - 1));
  }

  /** Splitting loses nothing: joining the pieces gives the path back. */
  lemma {:induction false} JoinSplitN(s: string, n: nat)
    requires n >= 1
    ensures Join(SplitN(s, n)) == s
    decreases n
  {
    if n == 1 || SlashFree(s) {
      JoinSplitNWhole(s, n);
    } else {
      var i := FirstSlash(s);
      JoinSplitN(s[i + 1..], n - 1);
      JoinSplitNStep(s, n, i);
    }
  }

  /** A slash-free first piece is split off exactly at the slash after it. */
  lemma SplitAfterPiece(head: string, tail: string, n: nat)
    requires n >= 2 && SlashFree(head)
    ensures SplitN(head + [Slash] + tail, n) == [head] + SplitN(tail, n - 1)
  {
    var s := head + [Slash] + tail;
    SlashAt(s, |head|);
    var i := FirstSlash(s);
    if i < |head| {
      SlashFreeAt(head, i);
    } else if i > |head| {
      assert s[..i][|head|] == Slash;
      SlashFreeAt(s[..i], |head|);
    }
    assert i == |head|;
    assert s[..i] == head;
    assert s[i + 1..] == tail;
  }

  /** Splitting the join of shaped pieces, given that the pieces after the first split back. */
  lemma SplitNJoinStep(pieces: seq<string>, n: nat)
    requires SplitShaped(pieces, n) && |pieces| >= 2
    requires SplitN(Join(pieces[1..]), n - 1) == pieces[1..]
    ensures SplitN(Join(pieces), n) == pieces
  {
    var head, tail := pieces[0], pieces[1..];
    assert pieces == [head] + tail;
    ShapedTail(pieces, n);
    JoinCons(head, tail);
    SplitAfterPiece(head, Join(tail), n);
  }

  /**
    Splitting undoes joining, for pieces that splitn could have produced:
    no more than n of them, all but the last slash-free, and the last
    slash-free too when there are fewer than n.
  */
  lemma {:induction false} SplitNJoin(pieces: seq<string>, n: nat)
    requires SplitShaped(pieces, n)
    ensures SplitN(Join(pieces), n) == pieces
    decreases n
  {
    if |pieces| == 1 {
      assert pieces == [pieces[0]];
    } else {
      ShapedTail(pieces, n);
      SplitNJoin(pieces[1..], n - 1);
      SplitNJoinStep(pieces, n);
    }
  }

  /** Extending the last piece extends the joined path by the same suffix. */
  lemma {:induction false} JoinExtendLast(pieces: seq<string>, suffix: string)
    requires |pieces| >= 1
    ensures Join(pieces[|pieces| - 1 := pieces[|pieces| - 1] + suffix]) == Join(pieces) + suffix
    decreases |pieces|
  {
    var extended := pieces[|pieces| - 1 := pieces[|pieces| - 1] + suffix];
    if |pieces| >= 2 {
      var tail := pieces[1..];
      JoinExtendLast(tail, suffix);
      assert extended[1..] == tail[|tail| - 1 := tail[|tail| - 1] + suffix];
    }
  }

  /** Appending a piece appends a slash and that piece to the joined path. */
  lemma JoinSnoc(pieces: seq<string>, last: string)
    requires |pieces| >= 1
    ensures Join(pieces + [last]) == Join(pieces) + [Slash] + last
  {
    var lastPiece := pieces[|pieces| - 1];
    assert lastPiece + [Slash] + last == lastPiece + ([Slash] + last);
    JoinExtendLast(pieces, [Slash] + last);
    JoinMergeLast(pieces, last);
    assert Join(pieces) + ([Slash] + last) == Join(pieces) + [Slash] + last;
  }

  /** Splitting the last piece at a slash into two pieces does not change the joined path. */
  lemma {:induction false} JoinMergeLast(pieces: seq<string>, last: string)
    requires |pieces| >= 1
    ensures Join(pieces + [last]) == Join(pieces[|pieces| - 1 := pieces[|pieces| - 1] + [Slash] + last])
    decreases |pieces|
  {
    if |pieces| == 1 {
      assert pieces + [last] == [pieces[0], last];
    } else {
      var tail := pieces[1..];
      JoinMergeLast(tail, last);
      assert (pieces + [last])[1..] == tail + [last];
      assert pieces[|pieces| - 1 := pieces[|pieces| - 1] + [Slash] + last][1..]
          == tail[|tail| - 1 := tail[|tail| - 1] + [Slash] + last];
    }
  }
}
