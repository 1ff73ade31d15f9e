/**
 Guest paths: the validator's index-based scan over bytes, the grammar it accepts, and why resolving an
 accepted path stays below the root.
 */
module GuestPath {
  import opened Bytes
  import opened Wrappers

  const MAX_PATH_BYTES := 4096
  const SLASH: Byte := 0x2F
  const BACKSLASH: Byte := 0x5C
  const DOT: Byte := 0x2E

  type Name = seq<Byte>

  // ---------------------------------------------------------------- the grammar

  ghost predicate Proper(name: Name) {
    name != [] && name != [DOT] && name != [DOT, DOT] && SLASH !in name && BACKSLASH !in name && 0 !in name
  }

  ghost predicate AllProper(names: seq<Name>) {
    forall k :: 0 <= k < |names| ==> Proper(names[k])
  }

  /** Names with one slash between them, and one more at the end if `trailing`. */
  function Join(names: seq<Name>, trailing: bool): seq<Byte> {
    if names == [] then []
    else if |names| == 1 then names[0] + if trailing then [SLASH] else []
    else names[0] + [SLASH] + Join(names[1..], trailing)
  }

  ghost predicate Joined(text: seq<Byte>, names: seq<Name>, trailing: bool) {
    AllProper(names) && text == Join(names, trailing)
  }

  ghost predicate GoodTail(text: seq<Byte>) {
    exists names, trailing :: Joined(text, names, trailing)
  }

  /** A slash, then proper names separated by single slashes, perhaps with one trailing slash. */
  ghost predicate IsPath(raw: seq<Byte>) {
    && 1 <= |raw| <= MAX_PATH_BYTES && raw[0] == SLASH && GoodTail(raw[1..])
  }

  // ---------------------------------------------------------------- the scan

  /** The first slash from `start` on, or the length. */
  function NextSlash(raw: seq<Byte>, start: nat): (at: nat)
    requires start <= |raw|
    ensures start <= at <= |raw| && (at < |raw| ==> raw[at] == SLASH) && SLASH !in raw[start..at]
    decreases |raw| - start
  {
    if start == |raw| then start
    else if raw[start] == SLASH then start
    else
      var at := NextSlash(raw, start + 1);
      assert raw[start..at] == [raw[start]] + raw[start + 1..at];
      at
  }

  lemma NotBefore(s: seq<Byte>, b: Byte, hi: nat, k: nat)
    requires hi <= |s| && b !in s[..hi] && k < |s| && s[k] == b
    ensures k >= hi
  {
  }

  lemma NoSlash(name: Name)
    requires SLASH !in name
    ensures NextSlash(name, 0) == |name|
  {
  }

  lemma AfterName(name: Name, rest: seq<Byte>)
    ensures var text := name + [SLASH] + rest;
      |text| > |name| && text[..|name|] == name && text[|name|] == SLASH && text[|name| + 1..] == rest
  {
  }

  /** Two ways of cutting a text at its first slash agree. */
  lemma FirstSlashIsOne(text: seq<Byte>, j: nat, k: nat)
    requires j < |text| && k < |text| && text[j] == text[k] == SLASH && SLASH !in text[..j] && SLASH !in text[..k]
    ensures j == k
  {
  }

  lemma JoinFirst(names: seq<Name>, trailing: bool)
    requires names != []
    ensures |names[0]| <= |Join(names, trailing)| && Join(names, trailing)[..|names[0]|] == names[0]
    ensures |names| > 1 || trailing ==>
      |Join(names, trailing)| > |names[0]| && Join(names, trailing)[|names[0]|] == SLASH
      && Join(names, trailing)[|names[0]| + 1..] == Join(names[1..], trailing)
    ensures |names| == 1 && !trailing ==> Join(names, trailing) == names[0]
  {
  }

  /** A name followed by a slash. */
  lemma TailCons(name: Name, rest: seq<Byte>)
    requires SLASH !in name
    ensures GoodTail(name + [SLASH] + rest) <==> Proper(name) && GoodTail(rest)
  {
    var text := name + [SLASH] + rest;
    if Proper(name) && GoodTail(rest) {
      var names, trailing :| Joined(rest, names, trailing);
      if names == [] {
        assert text == Join([name], true);
        assert Joined(text, [name], true);
      } else {
        var all := [name] + names;
        assert all[1..] == names;
        assert Joined(text, all, trailing);
      }
    }
    forall names, trailing | Joined(text, names, trailing)
      ensures Proper(name) && GoodTail(rest)
    {
      TailSplit(name, rest, names, trailing);
    }
  }

  lemma TailSplit(name: Name, rest: seq<Byte>, names: seq<Name>, trailing: bool)
    requires SLASH !in name && Joined(name + [SLASH] + rest, names, trailing)
    ensures names != [] && names[0] == name && Joined(rest, names[1..], trailing)
  {
    AfterName(name, rest);
    JoinNeedsSlash(name + [SLASH] + rest, |name|, names, trailing);
    JoinFirst(names, trailing);
    FirstSlashIsOne(name + [SLASH] + rest, |name|, |names[0]|);
  }

  /** A text with a slash joins at least one name, and one more name or the trailing slash. */
  lemma JoinNeedsSlash(text: seq<Byte>, k: nat, names: seq<Name>, trailing: bool)
    requires Joined(text, names, trailing) && k < |text| && text[k] == SLASH
    ensures names != [] && (|names| > 1 || trailing)
  {
  }

  /** The last segment: nothing after a trailing slash, or a name. */
  lemma TailLast(name: Name)
    requires SLASH !in name
    ensures GoodTail(name) <==> name == [] || Proper(name)
  {
    if name == [] { assert Joined(name, [], false); }
    if Proper(name) { assert Joined(name, [name], false); }
    forall names, trailing | Joined(name, names, trailing)
      ensures name == [] || Proper(name)
    {
      if names != [] { JoinFirst(names, trailing); }
    }
  }

  lemma {:induction false} TailIsClean(names: seq<Name>, trailing: bool)
    requires AllProper(names)
    ensures 0 !in Join(names, trailing) && BACKSLASH !in Join(names, trailing)
  {
    if |names| > 1 { TailIsClean(names[1..], trailing); }
  }

  lemma PathIsClean(raw: seq<Byte>)
    requires IsPath(raw)
    ensures 0 !in raw && BACKSLASH !in raw
  {
    var names, trailing :| Joined(raw[1..], names, trailing);
    TailIsClean(names, trailing);
    assert raw == [raw[0]] + raw[1..];
  }

  method IsGuestPath(raw: seq<Byte>) returns (ok: bool)
    ensures ok <==> IsPath(raw)
  {
    hide GoodTail, NextSlash;
    if raw == [] || |raw| > MAX_PATH_BYTES { return false; }
    if raw[0] != SLASH { return false; }
    if 0 in raw || BACKSLASH in raw {
      if IsPath(raw) { PathIsClean(raw); }
      return false;
    }
    if |raw| >= 2 && raw[1] == SLASH {
      TailCons([], raw[2..]);
      assert raw[1..] == [] + [SLASH] + raw[2..];
      return false;
    }
    var start, n := 1, |raw|;
    while start <= n
      invariant 1 <= start <= n
      invariant GoodTail(raw[1..]) <==> GoodTail(raw[start..])
      decreases n - start
    {
      var slash := NextSlash(raw, start);
      var seg := raw[start..slash];
      SegmentStep(raw, start, slash);
      if |seg| == 0 && slash != n { return false; }
      if seg == [DOT] || seg == [DOT, DOT] { return false; }
      if slash == n { return true; }
      start := slash + 1;
    }
    ok := true;
  }

  /** What one turn of the loop decides. */
  lemma SegmentStep(raw: seq<Byte>, start: nat, slash: nat)
    requires start <= slash <= |raw| && SLASH !in raw[start..slash] && (slash < |raw| ==> raw[slash] == SLASH)
    requires 0 !in raw && BACKSLASH !in raw
    ensures var seg := raw[start..slash];
      var named := seg != [DOT] && seg != [DOT, DOT];
      if slash == |raw| then GoodTail(raw[start..]) <==> named
      else GoodTail(raw[start..]) <==> seg != [] && named && GoodTail(raw[slash + 1..])
  {
    hide GoodTail;
    var seg := raw[start..slash];
    assert forall b :: b in seg ==> b in raw;
    if slash == |raw| {
      assert raw[start..] == seg;
      TailLast(seg);
    } else {
      assert raw[start..] == seg + [SLASH] + raw[slash + 1..];
      TailCons(seg, raw[slash + 1..]);
    }
  }

  // ---------------------------------------------------------------- resolution

  /** The segments between slashes, empty ones included. */
  function Split(text: seq<Byte>): (segments: seq<Name>)
    ensures segments != []
    decreases |text|
  {
    var at := NextSlash(text, 0);
    if at == |text| then [text] else [text[..at]] + Split(text[at + 1..])
  }

  /** Walks the segments from a directory below the root: empty and `.` stay, `..` goes up, and fails at the root. */
  function Resolve(stack: seq<Name>, segments: seq<Name>): Option<seq<Name>>
    decreases |segments|
  {
    if segments == [] then Some(stack)
    else
      var s, rest := segments[0], segments[1..];
      if s == [] || s == [DOT] then Resolve(stack, rest)
      else if s == [DOT, DOT] then if stack == [] then None else Resolve(stack[..|stack| - 1], rest)
      else Resolve(stack + [s], rest)
  }

  lemma SplitFirst(name: Name, rest: seq<Byte>)
    requires SLASH !in name
    ensures Split(name) == [name] && Split(name + [SLASH] + rest) == [name] + Split(rest)
  {
    AfterName(name, rest);
    var text := name + [SLASH] + rest;
    var at := NextSlash(text, 0);
    assert text[..at] == text[0..at];
    NotBefore(text, SLASH, at, |name|);
    FirstSlashIsOne(text, at, |name|);
    NoSlash(name);
  }

  lemma ProperHead(names: seq<Name>)
    requires AllProper(names) && names != []
    ensures SLASH !in names[0] && AllProper(names[1..])
  {
  }

  lemma JoinStep(names: seq<Name>, trailing: bool)
    requires |names| > 1 || (|names| == 1 && trailing)
    ensures Join(names, trailing) == names[0] + [SLASH] + Join(names[1..], trailing)
  {
  }

  lemma {:induction false} SplitJoin(names: seq<Name>, trailing: bool)
    requires AllProper(names)
    ensures Split(Join(names, trailing)) == names + if names == [] || trailing then [[]] else []
    decreases |names|
  {
    hide Split, AllProper;
    SplitFirst([], []);
    if names != [] {
      ProperHead(names);
      var rest := Join(names[1..], trailing);
      if |names| > 1 || trailing { JoinStep(names, trailing); }
      SplitFirst(names[0], rest);
      SplitJoin(names[1..], trailing);
      assert names == [names[0]] + names[1..] && names[0] + [] == names[0];
    }
  }

  lemma {:induction false} ResolveNames(stack: seq<Name>, names: seq<Name>, more: seq<Name>)
    requires AllProper(names)
    ensures Resolve(stack, names + more) == Resolve(stack + names, more)
    decreases |names|
  {
    if names == [] {
      assert stack + names == stack && names + more == more;
    } else {
      ResolveNames(stack + [names[0]], names[1..], more);
      assert (names + more)[1..] == names[1..] + more && stack + [names[0]] + names[1..] == stack + names;
    }
  }

  /**
   An accepted path never steps up: it resolves below the root, to exactly its names, whatever directory is
   current.
   */
  lemma AcceptedStaysBelowRoot(raw: seq<Byte>, current: seq<Name>)
    requires IsPath(raw)
    ensures exists names, trailing ::
      && Joined(raw[1..], names, trailing)
      && Resolve([], Split(raw[1..])) == Some(names)
      && Resolve(current, Split(raw[1..])) == Some(current + names)
  {
    var names, trailing :| Joined(raw[1..], names, trailing);
    SplitJoin(names, trailing);
    var more := if names == [] || trailing then [[]] else [];
    ResolveNames([], names, more);
    ResolveNames(current, names, more);
    assert [] + names == names;
    assert forall stack: seq<Name> :: Resolve(stack, [[]]) == Some(stack);
  }
}
