/** Names of checkout directories, their markers and the mirrors. */
module RefNames {
  /** Every occurrence of `c` replaced. */
  function Replace(s: string, c: char, code: string): string {
    if s == "" then "" else (if s[0] == c then code else [s[0]]) + Replace(s[1..], c, code)
  }

  function EncodeRef(ref: string): string {
    Replace(Replace(ref, '_', "_5f"), '/', "_2f")
  }

  function DecodeRef(encoded: string): string {
    if encoded == "" then ""
    else if "_5f" <= encoded then "_" + DecodeRef(encoded[3..])
    else if "_2f" <= encoded then "/" + DecodeRef(encoded[3..])
    else [encoded[0]] + DecodeRef(encoded[1..])
  }

  /** No slash, and every underscore begins one of the two codes. */
  predicate IsEncoded(s: string) {
    s == "" ||
    if s[0] == '_' then ("_5f" <= s || "_2f" <= s) && IsEncoded(s[3..]) else s[0] != '/' && IsEncoded(s[1..])
  }

  predicate Contains(s: string, part: string) {
    exists i :: 0 <= i <= |s| - |part| && s[i..][..|part|] == part
  }

  predicate EndsWith(s: string, part: string) {
    |part| <= |s| && s[|s| - |part|..] == part
  }

  predicate IsLower(c: char) { 'a' <= c <= 'z' }

  predicate IsUpper(c: char) { 'A' <= c <= 'Z' }

  predicate IsDigit(c: char) { '0' <= c <= '9' }

  /** All characters are ASCII, so the length in bytes is the length of the string. */
  predicate ValidRef(ref: string) {
    && 0 < |ref| <= 200
    && ref[0] !in "-/."
    && ref[|ref| - 1] !in "/."
    && !EndsWith(ref, ".lock")
    && !Contains(ref, "..")
    && !Contains(ref, "//")
    && forall i :: 0 <= i < |ref| ==> IsLower(ref[i]) || IsUpper(ref[i]) || IsDigit(ref[i]) || ref[i] in "._/-"
  }

  predicate ValidRepoName(name: string) {
    && 0 < |name| <= 64
    && name[0] !in ".-"
    && forall i :: 0 <= i < |name| ==> IsLower(name[i]) || IsDigit(name[i]) || name[i] in "._-"
  }

  function DirName(name: string, ref: string): string {
    name + "@" + EncodeRef(ref)
  }

  function MarkerName(name: string, ref: string): string {
    "." + DirName(name, ref) + ".done"
  }

  function MirrorName(name: string): string {
    name + ".git"
  }

  function TmpMirrorName(name: string): string {
    "." + name + ".git.tmp"
  }

  /** The repository and ref a directory name was made from. */
  function Origin(dir: string): (string, string) {
    if dir == "" then ("", "")
    else if dir[0] == '@' then ("", DecodeRef(dir[1..]))
    else
      var (name, ref) := Origin(dir[1..]);
      ([dir[0]] + name, ref)
  }

  // ---- The encoding is reversible

  function Code(c: char): string {
    if c == '_' then "_5f" else if c == '/' then "_2f" else [c]
  }

  lemma EncodeFirst(c: char, rest: string)
    ensures EncodeRef([c] + rest) == Code(c) + EncodeRef(rest)
  {
    assert ([c] + rest)[1..] == rest;
    var inner := Replace(rest, '_', "_5f");
    if c == '_' {
      ReplaceFirst('_', "5f" + inner);
      ReplaceFirst('5', "f" + inner);
      ReplaceFirst('f', inner);
      assert "_5f" + inner == ['_'] + ("5f" + inner) && "5f" + inner == ['5'] + ("f" + inner) && "f" + inner == ['f'] + inner;
    } else {
      ReplaceFirst(c, inner);
    }
  }

  lemma ReplaceFirst(c: char, rest: string)
    ensures Replace([c] + rest, '/', "_2f") == (if c == '/' then "_2f" else [c]) + Replace(rest, '/', "_2f")
  {
    assert ([c] + rest)[1..] == rest;
  }

  lemma DecodeFirst(c: char, rest: string)
    ensures DecodeRef(Code(c) + rest) == [c] + DecodeRef(rest)
  {
    var encoded := Code(c) + rest;
    assert encoded[|Code(c)|..] == rest && encoded[0] == Code(c)[0];
    if c == '/' {
      assert encoded[1] == '2';
    }
  }

  /** Decoding inverts encoding on every string, valid or not. */
  lemma {:induction false} RefRoundTrip(ref: string)
    ensures DecodeRef(EncodeRef(ref)) == ref
  {
    if ref != "" {
      assert ref == [ref[0]] + ref[1..];
      EncodeFirst(ref[0], ref[1..]);
      DecodeFirst(ref[0], EncodeRef(ref[1..]));
      RefRoundTrip(ref[1..]);
    }
  }

  /** The strings that are encodings of something are exactly those without a slash or a stray underscore. */
  lemma {:induction false} EncodedForm(s: string)
    ensures EncodeRef(DecodeRef(s)) == s <==> IsEncoded(s)
  {
    if s != "" {
      var n := if "_5f" <= s || "_2f" <= s then 3 else 1;
      var c := DecodeRef(s)[0];
      assert DecodeRef(s) == [c] + DecodeRef(s[n..]);
      EncodeFirst(c, DecodeRef(s[n..]));
      EncodedForm(s[n..]);
      assert s == s[..n] + s[n..];
      if Code(c) == s[..n] {
        CancelPrefix(s[..n], EncodeRef(DecodeRef(s[n..])), s[n..]);
      } else {
        assert s[0] == '_' || s[0] == '/';
        assert (Code(c) + EncodeRef(DecodeRef(s[n..])))[..3] == Code(c);
      }
    }
  }

  lemma CancelPrefix(prefix: string, a: string, b: string)
    ensures prefix + a == prefix + b <==> a == b
  {
    assert (prefix + a)[|prefix|..] == a && (prefix + b)[|prefix|..] == b;
  }

  lemma {:induction false} EncodedCharacters(ref: string)
    ensures forall c :: c in EncodeRef(ref) ==> c != '/' && (c in ref || c in "_25f")
  {
    if ref != "" {
      assert ref == [ref[0]] + ref[1..];
      EncodeFirst(ref[0], ref[1..]);
      EncodedCharacters(ref[1..]);
    }
  }

  // ---- Directories

  lemma {:induction false} DirNameHasOrigin(name: string, ref: string)
    requires '@' !in name
    ensures Origin(DirName(name, ref)) == (name, ref)
  {
    if name == "" {
      assert DirName(name, ref)[1..] == EncodeRef(ref);
      RefRoundTrip(ref);
    } else {
      assert DirName(name, ref)[1..] == DirName(name[1..], ref) && DirName(name, ref)[0] == name[0] && name[0] in name;
      assert [name[0]] + name[1..] == name;
      DirNameHasOrigin(name[1..], ref);
    }
  }

  /** One entry of a directory that is neither the directory itself nor its parent. */
  predicate IsPathComponent(s: string) {
    s != "" && s != "." && s != ".." && '/' !in s && '\0' !in s
  }

  lemma PlainDirName(name: string, ref: string)
    requires ValidRepoName(name) && ValidRef(ref)
    ensures forall c :: c in DirName(name, ref) ==> c != '/' && c != '\0'
  {
    EncodedCharacters(ref);
    assert forall c :: c in ref ==> c != '\0';
    assert forall c :: c in name ==> c != '/' && c != '\0';
  }

  /** Different checkouts get different directories and markers, whatever the refs; each name is a single path component
      that starts as a visible entry (directories) or a hidden one (markers), so no marker is ever a checkout directory. */
  lemma CheckoutNames(name: string, ref: string, otherName: string, otherRef: string)
    requires ValidRepoName(name) && ValidRepoName(otherName)
    ensures DirName(name, ref) == DirName(otherName, otherRef) ==> (name, ref) == (otherName, otherRef)
    ensures MarkerName(name, ref) == MarkerName(otherName, otherRef) ==> (name, ref) == (otherName, otherRef)
    ensures DirName(name, ref) != MarkerName(otherName, otherRef)
    ensures Origin(DirName(name, ref)) == (name, ref)
    ensures ValidRef(ref) ==> IsPathComponent(DirName(name, ref)) && IsPathComponent(MarkerName(name, ref))
  {
    DirNameHasOrigin(name, ref);
    DirNameHasOrigin(otherName, otherRef);
    var dir, marker, otherMarker := DirName(name, ref), MarkerName(name, ref), MarkerName(otherName, otherRef);
    assert dir[0] == name[0];
    assert marker[1..|marker| - 5] == dir && otherMarker[1..|otherMarker| - 5] == DirName(otherName, otherRef);
    if ValidRef(ref) {
      PlainDirName(name, ref);
    }
  }

  /** Repositories do not share a mirror, and no mirror is another one's unfinished clone. */
  lemma MirrorNames(name: string, other: string)
    requires ValidRepoName(name) && ValidRepoName(other)
    ensures MirrorName(name) == MirrorName(other) ==> name == other
    ensures TmpMirrorName(name) == TmpMirrorName(other) ==> name == other
    ensures MirrorName(name) != TmpMirrorName(other)
    ensures IsPathComponent(MirrorName(name)) && IsPathComponent(TmpMirrorName(name))
  {
    var mirror, otherMirror := MirrorName(name), MirrorName(other);
    assert mirror[0] == name[0];
    assert mirror[..|mirror| - 4] == name && otherMirror[..|otherMirror| - 4] == other;
    var tmp, otherTmp := TmpMirrorName(name), TmpMirrorName(other);
    assert tmp[1..|tmp| - 8] == name && otherTmp[1..|otherTmp| - 8] == other;
  }
}
