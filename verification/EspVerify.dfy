/** Binding expected artifacts to the files of an image: path canonicalisation and the comparison. */
module EspVerify {
  import opened Wrappers
  import opened Bytes
  import opened Fat16
  import opened Fat16Reader
  import opened Fat16Proofs

  // ---------------------------------------------------------------- volume paths

  function Slashes(s: string): (r: string)
    ensures |r| == |s| && '\\' !in r
  {
    seq(|s|, i requires 0 <= i < |s| => if s[i] == '\\' then '/' else s[i])
  }

  function UpperChar(c: char): char {
    if 'a' <= c <= 'z' then c - 'a' + 'A' else c
  }

  function Upper(s: string): (r: string)
    ensures |r| == |s|
  {
    seq(|s|, i requires 0 <= i < |s| => UpperChar(s[i]))
  }

  /** The pieces of a string between slashes, in order; never none. */
  function Split(s: string): (parts: seq<string>)
    ensures parts != []
    ensures forall p :: p in parts ==> '/' !in p
  {
    if s == "" then [""]
    else if s[0] == '/' then [""] + Split(s[1..])
    else
      var rest := Split(s[1..]);
      [[s[0]] + rest[0]] + rest[1..]
  }

  function Join(parts: seq<string>): string
    requires parts != []
  {
    if |parts| == 1 then parts[0] else parts[0] + "/" + Join(parts[1..])
  }

  function UpperAll(parts: seq<string>): (r: seq<string>)
    ensures |r| == |parts|
  {
    seq(|parts|, i requires 0 <= i < |parts| => Upper(parts[i]))
  }

  predicate PlainPart(p: string) {
    p != "" && p != "." && p != ".." && forall c :: c in p ==> c < 128 as char
  }

  function CanonicalPath(value: string): Checked<string> {
    var slashed := Slashes(value);
    var parts := Split(slashed);
    var _ :- Need(slashed != "" && slashed[0] == '/' && |parts| > 1, PathSyntax);
    var _ :- Need(forall p :: p in parts[1..] ==> PlainPart(p), PathSyntax);
    Success("/" + Join(UpperAll(parts[1..])))
  }

  lemma {:induction false} JoinSplit(s: string)
    ensures Join(UpperAll(Split(s))) == Upper(s)
  {
    if s != "" {
      JoinSplit(s[1..]);
      var rest := Split(s[1..]);
      assert Upper(s) == [UpperChar(s[0])] + Upper(s[1..]);
      if s[0] == '/' {
        assert UpperAll(Split(s))[1..] == UpperAll(rest);
      } else {
        assert UpperAll(Split(s))[1..] == UpperAll(rest)[1..];
        assert Upper([s[0]] + rest[0]) == [UpperChar(s[0])] + Upper(rest[0]);
      }
    }
  }

  /** Canonicalising is slashing and upper-casing: nothing is dropped, merged or reordered, and once is enough. */
  lemma CanonicalKeepsEveryCharacter(value: string)
    ensures CanonicalPath(value).Success? ==>
      && CanonicalPath(value).value == Upper(Slashes(value))
      && |CanonicalPath(value).value| == |value| > 1
  {
    var slashed := Slashes(value);
    if CanonicalPath(value).Success? {
      var parts := Split(slashed);
      assert parts[0] == "" && parts[1..] == Split(slashed[1..]);
      assert Split(slashed[1..])[0] in parts[1..];
      JoinSplit(slashed[1..]);
      assert Upper(slashed) == ['/'] + Upper(slashed[1..]);
    }
  }

  // ---------------------------------------------------------------- comparison

  datatype Finding =
    | Raised(error: InvalidEsp) | TooLarge(index: nat) | MissingPath(path: string) | Mismatch(path: string)

  datatype Comparison = Comparison(path: string, matches: bool)

  datatype Report = Report(passed: bool, comparisons: seq<Comparison>, errors: seq<Finding>)

  /** The expected path is valid and the image holds exactly the expected bytes under it. */
  ghost predicate Bound(files: map<string, seq<Byte>>, e: (string, seq<Byte>)) {
    var p := CanonicalPath(e.0);
    p.Success? && p.value in files && files[p.value] == e.1 && |e.1| <= MAX_IMAGE
  }

  ghost predicate DistinctTargets(expected: seq<(string, seq<Byte>)>) {
    forall i, j :: 0 <= i < j < |expected| ==> CanonicalPath(expected[i].0) != CanonicalPath(expected[j].0)
  }

  ghost predicate AllBound(files: map<string, seq<Byte>>, expected: seq<(string, seq<Byte>)>) {
    && DistinctTargets(expected)
    && forall i :: 0 <= i < |expected| ==> Bound(files, expected[i])
  }

  method Verify(image: seq<Byte>, expected: seq<(string, seq<Byte>)>) returns (report: Report)
    ensures report.passed <==> Load(image).Success? && AllBound(Load(image).value.1.files, expected)
    ensures report.passed <==> report.errors == []
    ensures report.passed ==> |report.comparisons| == |expected|
  {
    hide Load, CanonicalPath;
    var volume := new Reader(image);
    var outcome := volume.Init();
    if outcome.Failure? {
      return Report(false, [], [Raised(outcome.error)]);
    }
    ghost var files := Load(image).value.1.files;
    var comparisons: seq<Comparison>, errors: seq<Finding>, used: set<string> := [], [], {};
    for i := 0 to |expected|
      invariant volume.files == files
      invariant |comparisons| == i
      invariant forall p :: p in used <==> exists k :: 0 <= k < i && CanonicalPath(expected[k].0) == Success(p)
      invariant forall k :: 0 <= k < i ==> CanonicalPath(expected[k].0).Success?
      invariant DistinctTargets(expected[..i])
      invariant errors == [] <==> forall k :: 0 <= k < i ==> Bound(files, expected[k])
    {
      var (logical, external) := expected[i];
      var canonical := CanonicalPath(logical);
      if canonical.Failure? {
        assert !Bound(files, expected[i]);
        return Report(false, comparisons, errors + [Raised(canonical.error)]);
      }
      var path := canonical.value;
      if path in used {
        ghost var k :| 0 <= k < i && CanonicalPath(expected[k].0) == Success(path);
        assert !DistinctTargets(expected);
        return Report(false, comparisons, errors + [Raised(DuplicateExpected(path))]);
      }
      used := used + {path};
      if |external| > MAX_IMAGE {
        assert !Bound(files, expected[i]);
        return Report(false, comparisons, errors + [TooLarge(i)]);
      }
      var matches := path in volume.files && volume.files[path] == external;
      comparisons := comparisons + [Comparison(path, matches)];
      if !matches {
        assert !Bound(files, expected[i]);
        errors := errors + [if path !in volume.files then MissingPath(path) else Mismatch(path)];
      }
      assert expected[..i + 1] == expected[..i] + [expected[i]];
    }
    assert expected[..|expected|] == expected;
    report := Report(errors == [], comparisons, errors);
  }

  /**
   A pass binds every expected path to a file record of the image whose chain stores exactly the
   expected bytes.
   */
  lemma PassBindsImageBytes(image: seq<Byte>, expected: seq<(string, seq<Byte>)>, i: nat)
    requires Load(image).Success? && AllBound(Load(image).value.1.files, expected) && i < |expected|
    ensures var (v, t) := Load(image).value;
      && v.Valid() && v.data == image
      && exists k :: 0 <= k < |t.entries| && BindsRecord(v, t.entries[k], expected[i])
  {
    hide Load, CanonicalPath;
    AcceptedImagePlacesEveryByte(image);
    var (v, t) := Load(image).value;
    assert Bound(t.files, expected[i]);
    var k :| 0 <= k < |t.entries| && t.entries[k].path == CanonicalPath(expected[i].0).value
      && !t.entries[k].isDirectory;
    assert BindsRecord(v, t.entries[k], expected[i]);
  }

  ghost predicate BindsRecord(v: Volume, r: Record, e: (string, seq<Byte>))
    requires v.Valid()
  {
    && CanonicalPath(e.0) == Success(r.path) && !r.isDirectory && DescribesEntry(v, r)
    && r.size == |e.1| && StoredAt(v, r.clusters, e.1)
  }
}
