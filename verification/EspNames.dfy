/** Printing a name or an entry and reading it back; telling paths apart by their text. */
module EspNames {
  import opened Wrappers
  import opened Bytes
  import opened Fat16
  import opened EspImage

  lemma LastDotAbsent(s: string)
    requires '.' !in s
    ensures LastDot(s) == -1
  {
  }

  lemma {:induction false} LastDotBefore(base: string, ext: string)
    requires '.' !in ext
    ensures LastDot(base + "." + ext) == |base|
  {
    var s := base + "." + ext;
    if ext != "" {
      LastDotBefore(base, ext[..|ext| - 1]);
      assert s[..|s| - 1] == base + "." + ext[..|ext| - 1];
      assert s[|s| - 1] == ext[|ext| - 1];
    }
  }

  lemma {:induction false} RStripPad(bytes: seq<Byte>, spaces: nat)
    requires forall i :: 0 <= i < |bytes| ==> bytes[i] != SPACE
    ensures RStrip(bytes + seq(spaces, _ => SPACE)) == bytes
  {
    var s := bytes + seq(spaces, _ => SPACE);
    if spaces > 0 {
      assert s[..|s| - 1] == bytes + seq(spaces - 1, _ => SPACE);
      RStripPad(bytes, spaces - 1);
    } else {
      assert s == bytes;
    }
  }

  /** Padding a part to its width and stripping it again gives the part back, in printable bytes. */
  lemma PartRoundTrip(part: string, width: nat)
    requires |part| <= width && forall c :: c in part ==> NameChar(c)
    ensures IsAscii(part)
    ensures RStrip(Pad(Encode(part), width)) == Encode(part) && Ascii(Encode(part)) == part
    ensures forall b :: b in Encode(part) ==> 32 < b < 127 && !Forbidden(b)
    ensures forall b :: b in Pad(Encode(part), width) ==> 32 <= b < 127
  {
    forall i | 0 <= i < |part|
      ensures NameChar(part[i]) && part[i] < 128 as char
    {
      assert part[i] in part;
    }
    assert forall i :: 0 <= i < |part| ==> Encode(part)[i] == part[i] as int;
    RStripPad(Encode(part), width - |part|);
  }

  lemma SplitAtDot(name: string, base: string, ext: string)
    requires Spells(name, base, ext)
    ensures name[0] == base[0] != '.'
    ensures ext == "" ==> LastDot(name) == -1 && name == base
    ensures ext != "" ==> LastDot(name) == |base| < |name| && name[..|base|] == base && name[|base| + 1..] == ext
  {
    hide LastDot, NameChar;
    NoDot(base);
    NoDot(ext);
    if ext == "" { LastDotAbsent(base); } else { LastDotBefore(base, ext); }
  }

  lemma SpelledIsAscii(name: string, base: string, ext: string)
    requires Spells(name, base, ext)
    ensures IsAscii(name) && IsAscii(base) && IsAscii(ext)
  {
    hide NameChar;
    PartIsAscii(base);
    PartIsAscii(ext);
  }

  lemma PartIsAscii(part: string)
    requires forall c :: c in part ==> NameChar(c)
    ensures IsAscii(part)
  {
    forall i | 0 <= i < |part| ensures part[i] < 128 as char { assert part[i] in part; }
  }

  lemma NoDot(part: string)
    requires forall c :: c in part ==> NameChar(c)
    ensures '.' !in part
  {
  }

  /** The characters the reader admits are their own capitals. */
  lemma {:induction false} CapitalsStay(part: string)
    requires forall c :: c in part ==> NameChar(c)
    ensures Capitals(part) == part
  {
    hide NameChar, Capital;
    if part != "" {
      CapitalStays(part[0]);
      CapitalsStay(part[1..]);
      assert part == [part[0]] + part[1..];
    }
  }

  lemma CapitalStays(c: char)
    requires NameChar(c)
    ensures Capital(c) == [c]
  {
  }

  lemma NameSpelled(name: string, base: string, ext: string)
    requires Spells(name, base, ext)
    ensures IsAscii(base) && IsAscii(ext) && name != "." && name != ".."
    ensures Name83(name) == Success(Pad(Encode(base), 8) + Pad(Encode(ext), 3))
  {
    hide LastDot, Encode, Pad, NameChar, IsAscii;
    SplitAtDot(name, base, ext);
    SpelledIsAscii(name, base, ext);
    CapitalsStay(base);
    CapitalsStay(ext);
  }

  /** Every canonical name is printed in eleven bytes that the reader decodes to the same name. */
  lemma NameRoundTrip(name: string)
    requires Canonical83(name)
    ensures Name83(name).Success? && Name(Name83(name).value) == Success(name)
    ensures Name83(name).value[0] != 0 && Name83(name).value[0] != 0xE5
    ensures !IsDot(name) && name != "" && '/' !in name
  {
    var base, ext :| Spells(name, base, ext);
    NameSpelled(name, base, ext);
    PartRoundTrip(base, 8);
    PartRoundTrip(ext, 3);
    var raw := Name83(name).value;
    assert raw[..8] == Pad(Encode(base), 8) && raw[8..] == Pad(Encode(ext), 3);
    assert raw[0] == Encode(base)[0] && Encode(base)[0] in Encode(base) && !Forbidden(raw[0]);
    RawDecodes(raw, name, base, ext);
  }

  lemma RawDecodes(raw: seq<Byte>, name: string, base: string, ext: string)
    requires Spells(name, base, ext) && IsAscii(base) && IsAscii(ext)
    requires |raw| == 11 && raw[..8] == Pad(Encode(base), 8) && raw[8..] == Pad(Encode(ext), 3)
    requires raw[0] != 46
    ensures Name(raw) == Success(name) && '/' !in name
  {
    hide RStrip, Encode, Pad, NameChar, Forbidden, Name, Lowercase;
    PartRoundTrip(base, 8);
    PartRoundTrip(ext, 3);
    RawBytes(raw, Encode(base), Encode(ext));
    NotLower(base);
    NotLower(ext);
    NameText(name, base, ext);
    NameFrom(raw, Encode(base), Encode(ext));
  }

  lemma RawBytes(raw: seq<Byte>, base: seq<Byte>, ext: seq<Byte>)
    requires |raw| == 11 && |base| <= 8 && |ext| <= 3 && raw[..8] == Pad(base, 8) && raw[8..] == Pad(ext, 3)
    requires forall b :: b in Pad(base, 8) ==> 32 <= b < 127
    requires forall b :: b in Pad(ext, 3) ==> 32 <= b < 127
    requires forall b :: b in base ==> 32 < b < 127 && !Forbidden(b)
    requires forall b :: b in ext ==> 32 < b < 127 && !Forbidden(b)
    ensures forall c :: c in raw ==> 32 <= c < 127
    ensures forall c :: c in base + ext ==> c != SPACE && !Forbidden(c)
  {
    hide Pad, Forbidden;
    assert raw == raw[..8] + raw[8..];
  }

  lemma NameText(name: string, base: string, ext: string)
    requires Spells(name, base, ext)
    requires forall c :: c in base ==> !Lowercase(c) && c != '/'
    requires forall c :: c in ext ==> !Lowercase(c) && c != '/'
    ensures name == base + if ext != "" then "." + ext else ""
    ensures forall c :: c in name ==> !Lowercase(c) && c != '/'
  {
  }

  lemma NameFrom(raw: seq<Byte>, base: seq<Byte>, ext: seq<Byte>)
    requires |raw| == 11 && raw[0] != 46 && forall c :: c in raw ==> 32 <= c < 127
    requires RStrip(raw[..8]) == base != [] && RStrip(raw[8..]) == ext
    requires forall c :: c in base + ext ==> c != SPACE && !Forbidden(c)
    requires forall c :: c in Ascii(base) + (if ext != [] then "." + Ascii(ext) else "") ==> !Lowercase(c)
    ensures Name(raw) == Success(Ascii(base) + (if ext != [] then "." + Ascii(ext) else ""))
  {
  }

  lemma NotLower(part: string)
    requires forall c :: c in part ==> NameChar(c)
    ensures forall c :: c in part ==> !Lowercase(c) && c != '/'
  {
  }

  // ---------------------------------------------------------------- entries

  lemma EntryFields(raw: seq<Byte>, attr: Byte, cluster: nat, size: nat)
    requires |raw| == 11 && cluster < 0x1_0000 && size < 0x1_0000_0000
    ensures var e := DirEntry(raw, attr, cluster, size);
      e[..11] == raw && e[0] == raw[0] && e[11] == attr && e[12] == 0 && e[20..22] == [0, 0]
      && U16(e, 26) == cluster && U32(e, 28) == size
  {
  }

  /** The reader gets back from a printed entry what the builder put in. */
  lemma EntryRoundTrip(
    raw: seq<Byte>, name: string, attr: Byte, cluster: nat, size: nat, d: Directory, names: set<string>)
    requires |raw| == 11 && Name(raw) == Success(name) && name !in names
    requires attr in {ATTR_DIRECTORY, ATTR_FILE} && cluster < 0x1_0000 && size < 0x1_0000_0000
    ensures ReadEntry(DirEntry(raw, attr, cluster, size), d, names) == Success(Entry(attr, name, cluster, size))
  {
    hide DirEntry, Name, U16, U32;
    EntryFields(raw, attr, cluster, size);
  }

  // ---------------------------------------------------------------- paths

  lemma LastSlash(a: string, x: string, b: string, y: string)
    requires '/' !in x && '/' !in y && a + "/" + x == b + "/" + y
    ensures a == b && x == y
  {
    var s := a + "/" + x;
    assert s[|a|] == '/' && s[|b|] == '/';
    assert forall i :: |a| < i < |s| ==> s[i] == x[i - |a| - 1] && x[i - |a| - 1] in x;
    assert forall i :: |b| < i < |s| ==> s[i] == y[i - |b| - 1] && y[i - |b| - 1] in y;
    assert |a| == |b|;
    assert s[..|a|] == a && s[..|b|] == b;
    assert s[|a| + 1..] == x && s[|b| + 1..] == y;
  }

  ghost predicate SlashFree(p: Path) {
    forall i :: 0 <= i < |p| ==> '/' !in p[i].name
  }

  /** Paths of different names have different texts. */
  lemma {:induction false} TextInjective(p: Path, q: Path)
    requires SlashFree(p) && SlashFree(q) && Text(p) == Text(q)
    ensures Names(p) == Names(q)
  {
    if p != [] && q != [] {
      LastSlash(Text(Parent(p)), Last(p).name, Text(Parent(q)), Last(q).name);
      TextInjective(Parent(p), Parent(q));
      assert Names(p) == Names(Parent(p)) + [Last(p).name] && Names(q) == Names(Parent(q)) + [Last(q).name];
    }
  }
}
