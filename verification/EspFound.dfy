/**
 What the reader can find on any image at all: files of canonical names, none of them also a folder, inside
 its profile. So a print is read back as it was meant exactly when it is of such files.
 */
module EspFound {
  import opened Wrappers
  import opened Bytes
  import opened Fat16
  import opened EspImage
  import opened EspNames
  import opened EspPlan
  import opened EspRoundTrip

  // ---------------------------------------------------------------- names

  lemma AsciiChars(part: seq<Byte>)
    requires forall b :: b in part ==> 32 < b < 127 && !Forbidden(b)
    requires forall c :: c in Ascii(part) ==> !Lowercase(c)
    ensures forall c :: c in Ascii(part) ==> NameChar(c)
  {
    hide Lowercase, Forbidden;
    forall c | c in Ascii(part) ensures NameChar(c) {
      var i :| 0 <= i < |part| && Ascii(part)[i] == c;
      assert part[i] in part && c as int == part[i];
    }
  }

  /** Every name the reader accepts is canonical, but for the two dot names. */
  lemma AcceptedNameIsCanonical(raw: seq<Byte>)
    requires |raw| == 11 && Name(raw).Success? && !IsDot(Name(raw).value)
    ensures Canonical83(Name(raw).value)
  {
    hide RStrip, Forbidden, Lowercase, NameChar, Ascii;
    var base, ext := RStrip(raw[..8]), RStrip(raw[8..]);
    NameParts(raw, base, ext);
    var value := Name(raw).value;
    ValueChars(base, ext, value);
    AsciiChars(base);
    AsciiChars(ext);
    assert Spells(value, Ascii(base), Ascii(ext));
  }

  lemma NameParts(raw: seq<Byte>, base: seq<Byte>, ext: seq<Byte>)
    requires |raw| == 11 && Name(raw).Success? && !IsDot(Name(raw).value) && base == RStrip(raw[..8])
      && ext == RStrip(raw[8..])
    ensures 1 <= |base| <= 8 && |ext| <= 3
    ensures forall b :: b in base || b in ext ==> 32 < b < 127 && !Forbidden(b)
    ensures Name(raw).value == Ascii(base) + if ext != [] then "." + Ascii(ext) else ""
    ensures forall c :: c in Name(raw).value ==> !Lowercase(c)
  {
    hide Forbidden, Lowercase, Ascii;
    forall b | b in base || b in ext ensures 32 < b < 127 && !Forbidden(b) {
      assert b in base + ext;
      assert b in raw[..8] || b in raw[8..];
      assert b in raw && b != SPACE;
    }
  }

  lemma ValueChars(base: seq<Byte>, ext: seq<Byte>, value: string)
    requires value == Ascii(base) + if ext != [] then "." + Ascii(ext) else ""
    requires forall c :: c in value ==> !Lowercase(c)
    ensures forall c :: c in Ascii(base) || c in Ascii(ext) ==> !Lowercase(c)
  {
    hide Lowercase;
  }

  // ---------------------------------------------------------------- what the walk keeps

  /** A recorded folder of canonical name. */
  ghost predicate IsFolder(t: Tables, d: Path) {
    d != [] && Last(d).Folder? && Canonical83(Last(d).name) && Text(d) in t.paths && Text(d) !in t.files
  }

  /** Every folder on the way is recorded, under a canonical name, and not as a file. */
  ghost predicate Opened(t: Tables, d: Path) {
    forall i :: 0 < i <= |d| ==> IsFolder(t, d[..i])
  }

  /** The path of a recorded file. */
  ghost predicate Leads(t: Tables, p: Path, s: string) {
    && p != [] && Last(p).File? && Canonical83(Last(p).name) && Text(p) == s
    && |Parent(p)| <= MAX_DEPTH && Opened(t, Parent(p))
  }

  ghost predicate Regular(t: Tables) {
    && t.files.Keys <= t.paths && |t.paths| <= MAX_PATHS
    && forall s :: s in t.files ==> exists p :: Leads(t, p, s)
  }

  /** More is recorded, and what was recorded stays a file or a folder. */
  ghost predicate Extends(t: Tables, t': Tables) {
    t.paths <= t'.paths && forall s :: s in t.paths ==> (s in t'.files <==> s in t.files)
  }

  lemma OpenedStays(t: Tables, t': Tables, d: Path)
    requires Opened(t, d) && Extends(t, t')
    ensures Opened(t', d)
  {
    hide Canonical83, Text;
  }

  lemma ExtendsTwice(t: Tables, t': Tables, t'': Tables)
    requires Extends(t, t') && Extends(t', t'')
    ensures Extends(t, t'')
  {
  }

  lemma LeadsStays(t: Tables, t': Tables, p: Path, s: string)
    requires Leads(t, p, s) && Extends(t, t')
    ensures Leads(t', p, s)
  {
    hide Canonical83, Text, Opened;
    OpenedStays(t, t', Parent(p));
  }

  /** Recording a new folder. */
  lemma FolderRecorded(t: Tables, placed: Tables, d: Path, name: string)
    requires Regular(t) && Opened(t, d) && Canonical83(name) && Text(d) + "/" + name !in t.paths
    requires placed.paths == t.paths + {Text(d) + "/" + name} && placed.files == t.files && |placed.paths| <= MAX_PATHS
    ensures Regular(placed) && Extends(t, placed) && Opened(placed, d + [Folder(name)])
  {
    hide Canonical83, Text, Opened;
    OpenedStays(t, placed, d);
    OpenedMore(placed, d, name);
    LeadsAll(t, placed);
  }

  lemma LeadsAll(t: Tables, t': Tables)
    requires Regular(t) && Extends(t, t')
    ensures forall s :: s in t.files ==> exists p :: Leads(t', p, s)
  {
    hide Leads, Extends;
    forall s | s in t.files ensures exists p :: Leads(t', p, s) {
      var p :| Leads(t, p, s);
      LeadsStays(t, t', p, s);
    }
  }

  lemma TextMore(d: Path, part: Part)
    ensures Text(d + [part]) == Text(d) + "/" + part.name && Parent(d + [part]) == d && Last(d + [part]) == part
  {
  }

  lemma OpenedMore(t: Tables, d: Path, name: string)
    requires Opened(t, d) && Canonical83(name) && Text(d) + "/" + name in t.paths && Text(d) + "/" + name !in t.files
    ensures Opened(t, d + [Folder(name)])
  {
    hide Canonical83, Text;
    var more := d + [Folder(name)];
    TextMore(d, Folder(name));
    forall i | 0 < i <= |more| ensures IsFolder(t, more[..i]) {
      if i <= |d| { assert more[..i] == d[..i]; } else { assert more[..i] == more; }
    }
  }

  /** Recording a new file. */
  lemma FileFound(t: Tables, placed: Tables, after: Tables, d: Path, name: string, content: seq<Byte>)
    requires Regular(t) && Opened(t, d) && |d| <= MAX_DEPTH && Canonical83(name) && Text(d) + "/" + name !in t.paths
    requires placed.paths == t.paths + {Text(d) + "/" + name} && placed.files == t.files && |placed.paths| <= MAX_PATHS
    requires after == placed.(files := placed.files[Text(d) + "/" + name := content])
    ensures Regular(after) && Extends(t, after)
  {
    hide Canonical83, Text, Opened;
    assert Extends(t, after);
    OpenedStays(t, after, d);
    LeadsAll(t, after);
    TextMore(d, File(name));
    assert Leads(after, d + [File(name)], Text(d) + "/" + name);
    forall s | s in after.files ensures exists p :: Leads(after, p, s) {
      if s !in t.files { assert s == Text(d) + "/" + name; }
    }
  }

  lemma Placed(v: Volume, raw: seq<Byte>, at: nat, dir: Directory, e: Entry, t: Tables)
    requires v.Valid() && |raw| == ENTRY && Place(v, raw, at, dir, e, t).Success?
    ensures var placed := Place(v, raw, at, dir, e, t).value;
      && dir.path + e.name !in t.paths && placed.paths == t.paths + {dir.path + e.name} && placed.files == t.files
      && |placed.paths| <= MAX_PATHS
  {
    hide v.Valid, Chain;
  }

  /** A walk keeps what is recorded regular, wherever it starts. */
  lemma {:induction false} WalkFinds(v: Volume, buf: seq<Byte>, dir: Directory, t: Tables, d: Path)
    requires v.Valid() && Fits(v, buf, dir) && dir.path == Text(d) + "/" && dir.depth == |d|
    requires Regular(t) && Opened(t, d)
    ensures match Walk(v, buf, dir, t)
            case Failure(_) => true
            case Success(after) => Regular(after) && Extends(t, after)
    decreases 20 - dir.depth, |buf| + 1
  {
    hide v.Valid, Fits, Regular, Opened, Text, Scan;
    if dir.depth <= MAX_DEPTH { ScanFinds(v, buf, dir, 0, {}, {}, t, d); }
  }

  lemma {:induction false} ScanFinds(
    v: Volume, buf: seq<Byte>, dir: Directory, offset: nat, names: set<string>, dots: set<string>, t: Tables, d: Path)
    requires v.Valid() && Fits(v, buf, dir) && dir.path == Text(d) + "/" && dir.depth == |d| <= MAX_DEPTH
    requires offset % ENTRY == 0 && offset <= |buf| && Regular(t) && Opened(t, d)
    ensures match Scan(v, buf, dir, offset, names, dots, t)
            case Failure(_) => true
            case Success(after) => Regular(after) && Extends(t, after)
    decreases 20 - dir.depth, |buf| - offset
  {
    hide v.Valid, Regular, Opened, Text, ReadEntry, Enter, CheckDot, Absolute;
    if offset < |buf| && buf[offset] != 0 {
      NextEntryFits(offset, |buf|);
      var raw, next := buf[offset..offset + ENTRY], offset + ENTRY;
      var read := ReadEntry(raw, dir, names);
      if raw[0] == 0xE5 {
        ScanFinds(v, buf, dir, next, names, dots, t, d);
      } else if read.Success? {
        var e := read.value;
        if IsDot(e.name) {
          ScanFinds(v, buf, dir, next, names + {e.name}, dots + {e.name}, t, d);
        } else {
          EntryName(raw, dir, names);
          EnterFinds(v, raw, Absolute(v, buf, dir, offset), dir, e, t, d);
          var entered := Enter(v, raw, Absolute(v, buf, dir, offset), dir, e, t);
          if entered.Success? {
            OpenedStays(t, entered.value, d);
            ScanFinds(v, buf, dir, next, names + {e.name}, dots, entered.value, d);
            ScanExtends(v, buf, dir, next, names + {e.name}, dots, t, entered.value);
          }
        }
      }
    }
  }

  lemma ScanExtends(
    v: Volume, buf: seq<Byte>, dir: Directory, offset: nat, names: set<string>, dots: set<string>, t: Tables,
    entered: Tables)
    requires v.Valid() && Fits(v, buf, dir) && dir.depth <= MAX_DEPTH && offset % ENTRY == 0 && offset <= |buf|
      && Extends(t, entered)
    ensures match Scan(v, buf, dir, offset, names, dots, entered)
            case Failure(_) => true
            case Success(after) => Extends(entered, after) ==> Extends(t, after)
  {
    hide v.Valid, Fits, Scan;
  }

  lemma EntryName(raw: seq<Byte>, dir: Directory, names: set<string>)
    requires |raw| == ENTRY && ReadEntry(raw, dir, names).Success? && !IsDot(ReadEntry(raw, dir, names).value.name)
    ensures Canonical83(ReadEntry(raw, dir, names).value.name)
  {
    hide Name, Canonical83, IsDot;
    AcceptedNameIsCanonical(raw[..11]);
  }

  lemma {:induction false} EnterFinds(v: Volume, raw: seq<Byte>, at: nat, dir: Directory, e: Entry, t: Tables, d: Path)
    requires v.Valid() && |raw| == ENTRY && dir.path == Text(d) + "/" && dir.depth == |d| <= MAX_DEPTH
    requires Regular(t) && Opened(t, d) && Canonical83(e.name)
    ensures match Enter(v, raw, at, dir, e, t)
            case Failure(_) => true
            case Success(after) => Regular(after) && Extends(t, after)
    decreases 20 - dir.depth, 0
  {
    hide v.Valid, Regular, Opened, Text, Extends, Canonical83, Place, Walk, Gather;
    if Place(v, raw, at, dir, e, t).Success? {
      var placed := Place(v, raw, at, dir, e, t).value;
      var clusters := placed.entries[|t.entries|].clusters;
      Placed(v, raw, at, dir, e, t);
      if e.attr != ATTR_FILE {
        var sub := SubDirectory(v, dir, e, clusters);
        FolderRecorded(t, placed, d, e.name);
        TextMore(d, Folder(e.name));
        WalkFinds(v, Gather(v, clusters), sub, placed, d + [Folder(e.name)]);
        var walked := Walk(v, Gather(v, clusters), sub, placed);
        if walked.Success? { ExtendsTwice(t, placed, walked.value); }
      } else {
        FileFound(t, placed, Enter(v, raw, at, dir, e, t).value, d, e.name, Gather(v, clusters)[..e.size]);
      }
    }
  }

  // ---------------------------------------------------------------- the whole image

  lemma WalkedRegular(v: Volume, t: Tables)
    requires v.Valid() && Contents(v) == Success(t)
    ensures Regular(t)
  {
    hide v.Valid, Walk, CheckLeaks;
    assert Text([]) + "/" == "/" && Regular(EMPTY_TABLES) && Opened(EMPTY_TABLES, []);
    RootFits(v);
    WalkFinds(v, v.Root(), RootDirectory(v), EMPTY_TABLES, []);
  }

  lemma RootFits(v: Volume)
    requires v.Valid()
    ensures Fits(v, v.Root(), RootDirectory(v))
  {
  }

  /** The path a file of the input is found under is its own. */
  lemma FoundAtPath(t: Tables, p: Path, q: Path)
    requires IsFilePath(p) && Leads(t, q, Text(p))
    ensures p == q
  {
    hide Text;
    LeadsSlashFree(t, q, Text(p));
    TextInjective(p, q);
    forall i | 0 <= i < |p| ensures p[i] == q[i] {
      assert Names(p)[i] == Names(q)[i];
      if i < |q| - 1 { assert IsFolder(t, Parent(q)[..i + 1]) && Last(Parent(q)[..i + 1]) == q[i]; }
    }
  }

  lemma LeadsSlashFree(t: Tables, q: Path, s: string)
    requires Leads(t, q, s)
    ensures SlashFree(q)
  {
    hide Canonical83, Text;
    forall i | 0 <= i < |q| ensures '/' !in q[i].name {
      if i < |q| - 1 { assert IsFolder(t, Parent(q)[..i + 1]) && Last(Parent(q)[..i + 1]) == q[i]; }
      NameRoundTrip(q[i].name);
    }
  }

  /** Every file of the input that is found is led to through recorded folders. */
  lemma InputLeads(t: Tables, files: map<Path, seq<Byte>>, p: Path)
    requires Regular(t) && SameFiles(t.files, files) && p in files && IsFilePath(p)
    ensures Leads(t, p, Text(p))
  {
    hide Leads, IsFilePath, Text;
    var q :| Leads(t, q, Text(p));
    FoundAtPath(t, p, q);
  }

  /**
   Files found as they are given are of canonical names, none of them is a folder, and they are inside the
   profile.
   */
  lemma RegularIsReadable(t: Tables, files: map<Path, seq<Byte>>)
    requires Regular(t) && SameFiles(t.files, files) && PathInput(files.Keys)
    ensures Readable(files.Keys)
  {
    hide Regular, Leads, IsFilePath, IsFolder, SameFiles, Text, Canonical83;
    var keys := files.Keys;
    forall p: Path, i | p in keys && 0 <= i < |p| ensures Canonical83(p[i].name) {
      InputLeads(t, files, p);
      LeadsCanonical(t, p, i);
    }
    forall d | d in DirsOf(keys) ensures IsFolder(t, d) && |d| <= MAX_DEPTH {
      var p, i :| p in keys && 0 < i < |p| && d == p[..i];
      InputLeads(t, files, p);
      LeadsFolder(t, p, i);
    }
    forall p, d | p in keys && d in DirsOf(keys) ensures Names(p) != Names(d) { FileIsNoFolder(t, files, p, d); }
    assert Unclashed(keys);
    ItemsCounted(t, files);
  }

  lemma LeadsCanonical(t: Tables, p: Path, i: nat)
    requires Leads(t, p, Text(p)) && i < |p|
    ensures Canonical83(p[i].name)
  {
    hide Canonical83, Text;
    if i < |p| - 1 { assert IsFolder(t, Parent(p)[..i + 1]) && Last(Parent(p)[..i + 1]) == p[i]; }
  }

  lemma LeadsFolder(t: Tables, p: Path, i: nat)
    requires Leads(t, p, Text(p)) && 0 < i < |p|
    ensures IsFolder(t, p[..i]) && i <= MAX_DEPTH
  {
    hide Canonical83, Text, IsFolder;
    assert Parent(p)[..i] == p[..i];
  }

  lemma {:induction false} NamesText(p: Path, q: Path)
    requires Names(p) == Names(q)
    ensures Text(p) == Text(q)
  {
    if p != [] {
      assert Names(Parent(p)) == Names(p)[..|p| - 1] == Names(q)[..|q| - 1] == Names(Parent(q));
      assert Names(p)[|p| - 1] == Names(q)[|q| - 1];
      NamesText(Parent(p), Parent(q));
    }
  }

  lemma FileIsNoFolder(t: Tables, files: map<Path, seq<Byte>>, p: Path, d: Path)
    requires SameFiles(t.files, files) && p in files && IsFolder(t, d)
    ensures Names(p) != Names(d)
  {
    hide Text, Canonical83;
    if Names(p) == Names(d) { NamesText(p, d); }
  }

  lemma TextDecides(keys: set<Path>, p: Path, q: Path)
    requires PathInput(keys) && Unclashed(keys) && p in keys + DirsOf(keys) && q in keys + DirsOf(keys)
      && Text(p) == Text(q)
    ensures p == q
  {
    hide Text, DirsOf;
    ItemSlashFree(keys, p);
    ItemSlashFree(keys, q);
    TextInjective(p, q);
    NamesDecide(keys, p, q);
  }

  lemma ItemSlashFree(keys: set<Path>, p: Path)
    requires PathInput(keys) && p in keys + DirsOf(keys)
    ensures SlashFree(p)
  {
    if p !in keys {
      var q, i :| q in keys && 0 < i < |q| && p == q[..i];
      assert IsFilePath(q);
    } else {
      assert IsFilePath(p);
    }
  }

  /** Every file and folder of the input has been recorded, under a text of its own. */
  lemma ItemsCounted(t: Tables, files: map<Path, seq<Byte>>)
    requires PathInput(files.Keys) && Unclashed(files.Keys) && Regular(t) && SameFiles(t.files, files)
    requires forall d :: d in DirsOf(files.Keys) ==> IsFolder(t, d)
    ensures |files.Keys + DirsOf(files.Keys)| <= MAX_PATHS
  {
    hide Text, DirsOf, PathInput, Unclashed, Canonical83;
    var items := files.Keys + DirsOf(files.Keys);
    forall p, q | p in items && q in items && Text(p) == Text(q) ensures p == q { TextDecides(files.Keys, p, q); }
    forall p | p in items ensures Text(p) in t.paths {
      if p in files { assert Text(p) in t.files; }
    }
    CountByText(items, t.paths);
  }

  lemma {:induction false} CountByText(items: set<Path>, texts: set<string>)
    requires forall p :: p in items ==> Text(p) in texts
    requires forall p, q :: p in items && q in items && Text(p) == Text(q) ==> p == q
    ensures |items| <= |texts|
  {
    hide Text;
    if items != {} {
      var p :| p in items;
      CountByText(items - {p}, texts - {Text(p)});
      assert |items| == |items - {p}| + 1 && |texts| == |texts - {Text(p)}| + 1;
    }
  }

  /** Whatever the image: files that an accepting reader finds just as they are given are readable ones. */
  lemma FoundIsReadable(img: seq<Byte>, files: map<Path, seq<Byte>>)
    requires PathInput(files.Keys) && Load(img).Success? && SameFiles(Load(img).value.1.files, files)
    ensures Readable(files.Keys)
  {
    hide Open, Contents, Readable, SameFiles, PathInput;
    var (v, t) := Load(img).value;
    WalkedRegular(v, t);
    RegularIsReadable(t, files);
  }

  /**
   A printed image is accepted and read back as exactly its files, byte for byte, if and only if their names are
   canonical, none of them is also a folder, and they are inside the reader's profile.
   */
  lemma PrintedImageReadsBack(img: seq<Byte>, plan: Plan)
    requires Printed(img, plan) && PathInput(plan.files.Keys) && plan.dirs == DirsOf(plan.files.Keys)
    ensures Load(img).Success? && SameFiles(Load(img).value.1.files, plan.files) <==> Readable(plan.files.Keys)
    ensures CanonicalNames(plan.files.Keys) && Unclashed(plan.files.Keys) ==>
      (Load(img).Success? <==> InProfile(plan.files.Keys))
  {
    hide Load, Printed, PathInput, DirsOf, SameFiles, CanonicalNames, Unclashed, plan.Sound, plan.Canonical;
    var keys := plan.files.Keys;
    assert plan.Items() == keys + DirsOf(keys);
    if Load(img).Success? && SameFiles(Load(img).value.1.files, plan.files) { FoundIsReadable(img, plan.files); }
    if CanonicalNames(keys) && Unclashed(keys) {
      RootBuffer(plan, img);
      PlanIsCanonical(plan);
      CanonicalImageReadsBack(img, plan);
    }
  }
}
