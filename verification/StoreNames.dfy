/** Object names and the files behind them: version sidecars, the listing's filter, decimal counters. */
module StoreNames {
  import opened Prelude
  import opened Stores

  // ---- decimal counters ---------------------------------------------------------------------------

  function Digit(d: nat): char
    requires d < 10
  {
    '0' + d as char
  }

  /** `u64::to_string`. */
  function Decimal(n: nat): string {
    if n < 10 then [Digit(n)] else Decimal(n / 10) + [Digit(n % 10)]
  }

  predicate IsDigit(c: char) {
    '0' <= c <= '9'
  }

  function DigitValue(c: char): nat
    requires IsDigit(c)
  {
    (c - '0') as nat
  }

  function DigitsValue(s: string): nat
    requires forall i | 0 <= i < |s| :: IsDigit(s[i])
  {
    if s == [] then 0 else 10 * DigitsValue(s[..|s| - 1]) + DigitValue(s[|s| - 1])
  }

  /** `str::parse::<u64>`: an optional plus sign, digits, and no overflow. */
  function ParseU64(s: string): Option<u64> {
    var digits := if s != "" && s[0] == '+' then s[1..] else s;
    if digits == "" || (exists i | 0 <= i < |digits| :: !IsDigit(digits[i])) then None
    else if DigitsValue(digits) > U64_MAX then None
    else Some(DigitsValue(digits))
  }

  /** `char::is_whitespace`. */
  predicate IsSpace(c: char) {
    var n := c as int;
    || c == ' ' || '\t' <= c <= '\r' || n == 0x85 || n == 0xA0 || n == 0x1680 || 0x2000 <= n <= 0x200A
    || n == 0x2028 || n == 0x2029 || n == 0x202F || n == 0x205F || n == 0x3000
  }

  function TrimEnd(s: string): string {
    if s != "" && IsSpace(s[|s| - 1]) then TrimEnd(s[..|s| - 1]) else s
  }

  function Trim(s: string): string {
    if s != "" && IsSpace(s[0]) then Trim(s[1..]) else TrimEnd(s)
  }

  lemma {:induction false} DecimalIsDigits(n: nat)
    ensures Decimal(n) != ""
    ensures forall i | 0 <= i < |Decimal(n)| :: IsDigit(Decimal(n)[i])
    ensures DigitsValue(Decimal(n)) == n
  {
    if n >= 10 {
      DecimalIsDigits(n / 10);
      assert Decimal(n)[..|Decimal(n)| - 1] == Decimal(n / 10);
    } else {
      assert Decimal(n)[..0] == "";
    }
  }

  /** A counter read back from its sidecar is the counter that was written. */
  lemma ParseDecimal(n: u64)
    ensures ParseU64(Trim(Decimal(n))) == Some(n) && Trim(Decimal(n)) == Decimal(n)
  {
    DecimalIsDigits(n);
    assert !IsSpace(Decimal(n)[0]) && !IsSpace(Decimal(n)[|Decimal(n)| - 1]);
    assert Decimal(n)[0] != '+';
  }

  /** Etags are compared as text: equal texts are equal counters, and none is the empty text. */
  lemma DecimalIsInjective(m: nat, n: nat)
    ensures Decimal(m) == Decimal(n) <==> m == n
    ensures Decimal(n) != ""
  {
    DecimalIsDigits(m);
    DecimalIsDigits(n);
  }

  function EtagText(e: Etag): string {
    match e
    case Absent => ""
    case Counter(n) => Decimal(n)
  }

  lemma EtagTextIsInjective(a: Etag, b: Etag)
    ensures EtagText(a) == EtagText(b) <==> a == b
  {
    match (a, b) {
      case (Counter(m), Counter(n)) => DecimalIsInjective(m, n);
      case (Counter(m), Absent) => DecimalIsInjective(m, m);
      case (Absent, Counter(n)) => DecimalIsInjective(n, n);
      case _ =>
    }
  }

  // ---- file names -----------------------------------------------------------------------------------

  /** The part of a slash-separated name after the last slash. */
  function FileName(name: string): string {
    if name == "" then "" else if name[|name| - 1] == '/' then "" else FileName(name[..|name| - 1]) + [name[|name| - 1]]
  }

  /** The place of the last dot. */
  function LastDot(s: string): Option<nat> {
    if s == "" then None else if s[|s| - 1] == '.' then Some(|s| - 1) else LastDot(s[..|s| - 1])
  }

  lemma {:induction false} LastDotIsLast(s: string)
    ensures LastDot(s).Some? ==> LastDot(s).value < |s| && s[LastDot(s).value] == '.'
    ensures LastDot(s).Some? ==> forall i | LastDot(s).value < i < |s| :: s[i] != '.'
    ensures LastDot(s).None? ==> forall i | 0 <= i < |s| :: s[i] != '.'
  {
    if s != "" && s[|s| - 1] != '.' {
      var front := s[..|s| - 1];
      LastDotIsLast(front);
      forall i | 0 <= i < |s| ensures i < |s| - 1 ==> front[i] == s[i] {}
    }
  }

  /** `Path::extension`: a leading dot does not start an extension, and a trailing dot starts an empty one. */
  function Extension(file: string): (ext: Option<string>)
    ensures ext.Some? ==> |ext.value| < |file|
  {
    LastDotIsLast(file);
    if LastDot(file).None? || LastDot(file).value == 0 then None
    else Some(file[LastDot(file).value + 1..])
  }

  /** A name up to its extension and the dot before it. */
  function Stem(name: string): string {
    var ext := Extension(FileName(name));
    FileNameIsSuffix(name);
    if ext.None? then name else name[..|name| - |ext.value| - 1]
  }

  /** `Path::set_extension` with a non-empty extension. */
  function SetExtension(name: string, ext: string): string {
    Stem(name) + "." + ext
  }

  /** The name of the version sidecar. */
  function VerPath(name: string): string {
    match Extension(FileName(name))
    case None => SetExtension(name, "version")
    case Some(e) => SetExtension(name, if e + ".version" == "" then "version" else e + ".version")
  }

  lemma {:induction false} FileNameIsSuffix(name: string)
    ensures |FileName(name)| <= |name|
    ensures name == name[..|name| - |FileName(name)|] + FileName(name)
    ensures forall i | 0 <= i < |FileName(name)| :: FileName(name)[i] != '/'
  {
    if name != "" && name[|name| - 1] != '/' {
      var n := |name| - 1;
      var front := name[..n];
      FileNameIsSuffix(front);
      var file := FileName(front);
      assert FileName(name) == file + [name[n]];
      hide FileName;
      var cut := n - |file|;
      assert front[..cut] == name[..cut];
      assert name == front + [name[n]];
      assert front + [name[n]] == front[..cut] + (file + [name[n]]);
    }
  }

  lemma StemAndExtension(name: string)
    ensures var ext := Extension(FileName(name)); name == Stem(name) + if ext.Some? then "." + ext.value else ""
  {
    hide FileName, Extension;
    var file := FileName(name);
    var ext := Extension(file);
    FileNameIsSuffix(name);
    if ext.Some? {
      ExtensionEnds(file);
      EndOfSuffix(name, file, |ext.value| + 1);
      var dot := |name| - |ext.value| - 1;
      assert name == name[..dot] + name[dot..];
    }
  }

  lemma ExtensionEnds(file: string)
    requires Extension(file).Some?
    ensures var e := Extension(file).value; |e| < |file| && file[|file| - |e| - 1..] == "." + e
  {
    LastDotIsLast(file);
    hide LastDot;
  }

  lemma EndOfSuffix(name: string, file: string, k: nat)
    requires |file| <= |name| && name == name[..|name| - |file|] + file && k <= |file|
    ensures name[|name| - k..] == file[|file| - k..]
  {}

  /** The juggling with extensions appends one suffix to every name, so sidecars are one to one. */
  lemma VerPathAppends(name: string)
    ensures VerPath(name) == name + ".version"
  {
    StemAndExtension(name);
    hide Stem, Extension, FileName;
    var ext := Extension(FileName(name));
    if ext.Some? {
      assert ext.value + ".version" != "";
      Regroup(Stem(name), ext.value);
    } else {
      assert "." + "version" == ".version";
      assert name + "." + "version" == name + ("." + "version");
    }
  }

  lemma Regroup(stem: string, e: string)
    ensures stem + "." + (e + ".version") == (stem + ("." + e)) + ".version"
  {}

  // ---- the listing's filter --------------------------------------------------------------------------

  predicate EndsWith(s: string, t: string) {
    |t| <= |s| && s[|s| - |t|..] == t
  }

  /** What a listing skips: the lock, temporary files, and anything with an extension ending in `version`. */
  predicate Skipped(name: string) {
    var file := FileName(name);
    || file == ".cas.lock"
    || (file != "" && file[0] == '.' && EndsWith(file, ".tmp"))
    || (var ext := Extension(file); ext.Some? && EndsWith(ext.value, "version"))
  }

  predicate SafeSegment(s: string) {
    s != "." && s != ".."
  }

  /** The names `obj_path` accepts. */
  predicate SafeName(name: string) {
    && name != "" && name[0] != '/'
    && (forall i | 0 <= i < |name| :: name[i] != '\\' && name[i] != '\0')
    && forall seg | seg in Segments(name) :: SafeSegment(seg)
  }

  function Segments(name: string): seq<string>
    decreases |name|
  {
    FileNameIsSuffix(name);
    var file := FileName(name);
    if |file| == |name| then [name]
    else Segments(name[..|name| - |file| - 1]) + [file]
  }

  /** The path a name is joined to: empty segments fall away. */
  function Canon(name: string): string
    decreases |name|
  {
    FileNameIsSuffix(name);
    var file := FileName(name);
    if |file| == |name| then name
    else
      var dir := Canon(name[..|name| - |file| - 1]);
      if file == "" then dir else if dir == "" then file else dir + "/" + file
  }

  /** Names without empty segments, which are paths as they stand. */
  predicate Canonical(name: string) {
    forall seg | seg in Segments(name) :: seg != ""
  }

  lemma {:induction false} CanonOfCanonical(name: string)
    requires Canonical(name)
    ensures Canon(name) == name && name != ""
    decreases |name|
  {
    FileNameIsSuffix(name);
    var file := FileName(name);
    if |file| == |name| {
      assert name in Segments(name);
    } else {
      var cut := |name| - |file| - 1;
      var dir := name[..cut];
      assert Segments(name) == Segments(dir) + [file];
      assert forall seg :: seg in Segments(dir) || seg == file ==> seg in Segments(name);
      CanonOfCanonical(dir);
      SlashBefore(name);
      assert file in Segments(name);
      assert Canon(name) == dir + "/" + file;
      hide FileName, Segments, Canon;
      assert name == name[..cut] + [name[cut]] + name[cut + 1..];
      assert name == dir + "/" + file;
    }
  }

  /** The file name starts the name or follows a slash. */
  lemma {:induction false} SlashBefore(name: string)
    ensures |FileName(name)| < |name| ==> name[|name| - |FileName(name)| - 1] == '/'
    ensures |FileName(name)| <= |name|
  {
    FileNameIsSuffix(name);
    if name != "" && name[|name| - 1] != '/' { SlashBefore(name[..|name| - 1]); }
  }

  /** An object name the store can tell from its own files. */
  predicate ObjectName(name: string) {
    SafeName(name) && Canonical(name) && FileName(name) != "" && !Skipped(name)
  }

  /** The directories above a path. */
  function Above(path: string): set<string> {
    set i | 0 <= i < |path| && path[i] == '/' :: path[..i]
  }

  lemma FileNameUnfold(front: string, c: char)
    requires c != '/'
    ensures FileName(front + [c]) == FileName(front) + [c]
  {
    assert (front + [c])[..|front|] == front;
  }

  lemma {:induction false} FileNameOfAppended(name: string, suffix: string)
    requires forall i | 0 <= i < |suffix| :: suffix[i] != '/'
    ensures FileName(name + suffix) == FileName(name) + suffix
  {
    hide FileName;
    if suffix == "" {
      assert name + suffix == name;
    } else {
      var n := |suffix| - 1;
      var front := suffix[..n];
      FileNameOfAppended(name, front);
      FileNameUnfold(name + front, suffix[n]);
      assert suffix == front + [suffix[n]];
      assert name + suffix == name + front + [suffix[n]];
    }
  }

  lemma {:induction false} LastDotOfAppended(s: string, t: string)
    requires forall i | 0 <= i < |t| :: t[i] != '.'
    ensures LastDot(s + "." + t) == Some(|s|)
  {
    var whole := s + "." + t;
    if t == "" {
      assert whole[|whole| - 1] == '.';
    } else {
      var n := |t| - 1;
      LastDotOfAppended(s, t[..n]);
      assert whole[..|whole| - 1] == s + "." + t[..n];
      assert whole[|whole| - 1] == t[n];
    }
  }

  /** A sidecar is always skipped, so it is never an object's name. */
  lemma SidecarsAreSkipped(name: string)
    requires FileName(name) != ""
    ensures Skipped(name + ".version")
  {
    hide Skipped, FileName, Extension;
    SkippedByExtension(name, ".version", "version");
  }

  lemma SkippedByExtension(name: string, suffix: string, ext: string)
    requires FileName(name) != "" && suffix == ['.'] + ext && EndsWith(ext, "version")
    requires forall i | 0 <= i < |ext| :: ext[i] != '.' && ext[i] != '/'
    ensures Skipped(name + suffix)
  {
    var file := FileName(name);
    FileNameOfAppended(name, suffix);
    ExtensionOfAppended(file, ext);
    hide FileName, Extension, EndsWith;
    assert file + suffix == file + "." + ext;
  }

  lemma ExtensionOfAppended(stem: string, ext: string)
    requires stem != "" && forall i | 0 <= i < |ext| :: ext[i] != '.'
    ensures Extension(stem + "." + ext) == Some(ext)
  {
    LastDotOfAppended(stem, ext);
    hide LastDot;
    assert (stem + "." + ext)[|stem| + 1..] == ext;
  }

  // ---- the engine's names -----------------------------------------------------------------------------

  function HexDigit(d: nat): char
    requires d < 16
  {
    if d < 10 then '0' + d as char else 'a' + (d - 10) as char
  }

  function Hex(bs: Bytes): string {
    if bs == [] then "" else Hex(bs[..|bs| - 1]) + [HexDigit(bs[|bs| - 1] / 16), HexDigit(bs[|bs| - 1] % 16)]
  }

  datatype EngineName = Manifest | Header(digest: Bytes) | Body(digest: Bytes)

  function InDirectory(dir: string, file: string): string {
    dir + "/" + file
  }

  function NameOf(k: EngineName): string {
    match k
    case Manifest => "manifest.json"
    case Header(d) => InDirectory("blobs", Hex(d))
    case Body(d) => InDirectory("blobs", Hex(d) + ".body")
  }

  predicate IsHexDigit(c: char) {
    '0' <= c <= '9' || 'a' <= c <= 'f'
  }

  lemma HexDigitIsInjective(c: nat, d: nat)
    requires c < 16 && d < 16
    ensures HexDigit(c) == HexDigit(d) <==> c == d
    ensures IsHexDigit(HexDigit(c))
  {}

  lemma {:induction false} HexLooks(a: Bytes)
    ensures |Hex(a)| == 2 * |a|
    ensures forall i | 0 <= i < |Hex(a)| :: IsHexDigit(Hex(a)[i])
  {
    if a != [] {
      hide HexDigit;
      var n := |a| - 1;
      HexLooks(a[..n]);
      HexDigitIsInjective(a[n] / 16, a[n] % 16);
      HexDigitIsInjective(a[n] % 16, a[n] / 16);
    }
  }

  lemma HexLast(a: Bytes)
    requires a != []
    ensures var n, h := |a| - 1, Hex(a);
      |h| >= 2 && h[..|h| - 2] == Hex(a[..n]) && h[|h| - 2] == HexDigit(a[n] / 16) && h[|h| - 1] == HexDigit(a[n] % 16)
  {}

  lemma {:induction false} HexIsInjective(a: Bytes, b: Bytes)
    ensures Hex(a) == Hex(b) <==> a == b
  {
    HexLooks(a);
    HexLooks(b);
    if a != [] && b != [] && |a| == |b| {
      var n := |a| - 1;
      HexLast(a);
      HexLast(b);
      HexIsInjective(a[..n], b[..n]);
      HexPairIsInjective(a[n], b[n]);
      hide Hex, HexDigit;
      SplitAtLast(a, Hex(a), 2);
      SplitAtLast(b, Hex(b), 2);
    }
  }

  lemma HexPairIsInjective(x: u8, y: u8)
    ensures HexDigit(x / 16) == HexDigit(y / 16) && HexDigit(x % 16) == HexDigit(y % 16) <==> x == y
  {
    HexDigitIsInjective(x / 16, y / 16);
    HexDigitIsInjective(x % 16, y % 16);
    hide HexDigit;
    assert x == 16 * (x / 16) + x % 16 && y == 16 * (y / 16) + y % 16;
  }

  /** A text is its front and its last characters, and so are the bytes. */
  lemma SplitAtLast(a: Bytes, h: string, k: nat)
    requires a != [] && |h| >= 2 && k == 2
    ensures a == a[..|a| - 1] + [a[|a| - 1]]
    ensures h == h[..|h| - k] + [h[|h| - 2], h[|h| - 1]]
  {}

  lemma NoSlashInHex(bs: Bytes)
    ensures forall i | 0 <= i < |Hex(bs)| :: Hex(bs)[i] != '/' && Hex(bs)[i] != '.' && Hex(bs)[i] != '\\' && Hex(bs)[i] != '\0'
    ensures |Hex(bs)| == 2 * |bs|
  {
    HexLooks(bs);
  }

  lemma {:induction false} NoDotNoExtension(s: string)
    requires forall i | 0 <= i < |s| :: s[i] != '.'
    ensures LastDot(s).None? && Extension(s).None?
  {
    LastDotIsLast(s);
  }

  lemma SameDirectory(dir: string, a: string, b: string)
    ensures InDirectory(dir, a) == InDirectory(dir, b) <==> a == b
    ensures |InDirectory(dir, a)| == |dir| + 1 + |a|
    ensures dir != "" ==> InDirectory(dir, a)[0] == dir[0]
  {
    var skip := |dir| + 1;
    assert InDirectory(dir, a)[skip..] == a && InDirectory(dir, b)[skip..] == b;
  }

  lemma SameSuffix(a: string, b: string, suffix: string)
    ensures a + suffix == b + suffix <==> a == b
  {
    assert a == (a + suffix)[..|a + suffix| - |suffix|];
    assert b == (b + suffix)[..|b + suffix| - |suffix|];
  }

  /** Different keys have different names. */
  lemma NameOfIsInjective(a: EngineName, b: EngineName)
    ensures NameOf(a) == NameOf(b) <==> a == b
  {
    if !a.Manifest? && !b.Manifest? {
      FilesDiffer(a, b);
      hide Hex, InDirectory, FileOf;
      SameDirectory("blobs", FileOf(a), FileOf(b));
    } else if a != b {
      var blob := if a.Manifest? then b else a;
      hide Hex, InDirectory;
      SameDirectory("blobs", FileOf(blob), "");
      assert NameOf(Manifest)[0] != NameOf(blob)[0];
    }
  }

  function FileOf(k: EngineName): string
    requires !k.Manifest?
  {
    if k.Header? then Hex(k.digest) else Hex(k.digest) + ".body"
  }

  lemma FilesDiffer(a: EngineName, b: EngineName)
    requires !a.Manifest? && !b.Manifest?
    ensures FileOf(a) == FileOf(b) <==> a == b
  {
    HexIsInjective(a.digest, b.digest);
    NoSlashInHex(a.digest);
    NoSlashInHex(b.digest);
    hide Hex;
    SameSuffix(Hex(a.digest), Hex(b.digest), ".body");
    if a.Header? != b.Header? {
      var header, body := if a.Header? then a else b, if a.Header? then b else a;
      assert FileOf(body)[|Hex(body.digest)|] == '.';
    }
  }

  lemma {:induction false} FileNameWhole(s: string)
    requires forall i | 0 <= i < |s| :: s[i] != '/'
    ensures FileName(s) == s
  {
    if s != "" {
      FileNameWhole(s[..|s| - 1]);
      assert s == s[..|s| - 1] + [s[|s| - 1]];
    }
  }

  lemma ManifestFile()
    ensures SafeName("manifest.json") && Canonical("manifest.json") && FileName("manifest.json") == "manifest.json"
    ensures Extension("manifest.json") == Some("json")
  {
    FileNameWhole("manifest.json");
    assert "manifest.json" == "manifest" + "." + "json";
    ExtensionOfAppended("manifest", "json");
    assert Segments("manifest.json") == ["manifest.json"];
    assert |"manifest.json"| == 13;
    assert SafeSegment("manifest.json") && Canonical("manifest.json");
  }

  predicate Clean(s: string) {
    |s| > 2 && forall i | 0 <= i < |s| :: s[i] != '/' && s[i] != '\\' && s[i] != '\0'
  }

  lemma BlobFile(dir: string, file: string)
    requires Clean(dir) && Clean(file)
    ensures SafeName(InDirectory(dir, file)) && Canonical(InDirectory(dir, file)) && FileName(InDirectory(dir, file)) == file
  {
    FileNameWhole(dir);
    NestedFile(dir, file);
    assert Segments(dir) == [dir];
    assert SafeSegment(dir) && SafeSegment(file);
    hide Segments, FileName, SafeSegment;
    var name := InDirectory(dir, file);
    forall i | 0 <= i < |name| ensures name[i] != '\\' && name[i] != '\0' {
      if i > |dir| { assert name[i] == file[i - |dir| - 1]; }
    }
  }

  lemma NestedFile(dir: string, file: string)
    requires forall i | 0 <= i < |file| :: file[i] != '/'
    ensures FileName(dir + "/" + file) == file
    ensures Segments(dir + "/" + file) == Segments(dir) + [file]
  {
    FileNameOfAppended(dir + "/", file);
    AfterSlash(dir);
    assert FileName(dir + "/" + file) == "" + file == file;
    hide FileName;
    var name := dir + "/" + file;
    assert |name| - |file| - 1 == |dir| && name[..|dir|] == dir;
  }

  lemma AfterSlash(dir: string)
    ensures FileName(dir + "/") == ""
  {
    assert (dir + "/")[|dir|] == '/';
  }

  lemma BodyExtension(hex: string)
    requires hex != ""
    ensures Extension(hex + ".body") == Some("body")
  {
    assert hex + ".body" == hex + "." + "body";
    ExtensionOfAppended(hex, "body");
  }

  /** Every key the engine uses is an object's name: accepted, listed, and no sidecar. */
  lemma EngineNamesAreObjectNames(k: EngineName)
    requires k.Manifest? || |k.digest| == 32
    ensures ObjectName(NameOf(k))
  {
    var name := NameOf(k);
    hide SafeName, Canonical, FileName, Extension, LastDot, Hex, InDirectory;
    match k {
      case Manifest =>
        ManifestFile();
        assert !EndsWith("json", "version");
      case Header(d) =>
        NoSlashInHex(d);
        BlobFile("blobs", Hex(d));
        NoDotNoExtension(Hex(d));
        assert Hex(d) != ".cas.lock" by { assert ".cas.lock"[0] == '.'; }
      case Body(d) =>
        NoSlashInHex(d);
        BlobFile("blobs", Hex(d) + ".body");
        BodyExtension(Hex(d));
        assert (Hex(d) + ".body")[0] == Hex(d)[0] != '.';
        assert ".cas.lock"[0] == '.';
        assert Extension(Hex(d) + ".body") == Some("body");
        assert !EndsWith("body", "version");
    }
  }
}
