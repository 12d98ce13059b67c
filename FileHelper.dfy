/**
 * File-name helpers of the storage engine (utils/fileHelper.js): reading,
 * replacing and suffixing the extension of a file name, and choosing the
 * extension of a freshly generated name.
 *
 * The source works with `name.split('.')`, `parts.pop()` and
 * `parts.join('.')`; `Split` and `Join` model those two built-ins, and
 * `LastDot` is an independent, index-based description of "the last dot"
 * against which every helper is specified.
 */
module FileHelper {
  import opened Js

  /** `s.split('.')`: the dot-free runs of `s`, in order. */
  function Split(s: string): (parts: seq<string>)
    ensures |parts| >= 1
    ensures |parts| == 1 <==> '.' !in s
  {
    if s == [] then [""]
    else
      var rest := Split(s[1..]);
      if s[0] == '.' then [""] + rest
      else [[s[0]] + rest[0]] + rest[1..]
  }

  /** `parts.join('.')` */
  function Join(parts: seq<string>): string
  {
    if parts == [] then ""
    else if |parts| == 1 then parts[0]
    else parts[0] + "." + Join(parts[1..])
  }

  /** The index of the last `.` of `s`, if there is one. */
  function LastDot(s: string): (k: Option<nat>)
    ensures k.None? <==> '.' !in s
    ensures k.Some? ==> k.value < |s| && s[k.value] == '.' && forall j :: k.value < j < |s| ==> s[j] != '.'
  {
    if s == [] then None
    else if s[|s| - 1] == '.' then Some(|s| - 1)
    else LastDot(s[..|s| - 1])
  }

  /** Nothing after the last dot is a dot. */
  lemma AfterLastDot(s: string)
    requires LastDot(s).Some?
    ensures '.' !in s[LastDot(s).value + 1..]
  {
  }

  /** A string value that is also truthy: `name && typeof name === 'string'`. */
  predicate NonEmptyString(v: Value)
  {
    v.Str? && v.s != ""
  }

  /**
   * getExtension: the text after the last dot, `None` (`undefined`) when
   * there is no dot. A missing or falsy non-string argument is rejected by
   * the guard; a truthy non-string one passes the guard and then fails in
   * `filename.split`, so every non-string argument throws.
   */
  function GetExtension(filename: Value): (r: Result<Option<string>>)
    ensures r.Err? <==> !filename.Str?
    ensures filename.Str? && LastDot(filename.s).None? ==> r == Ok(None)
    ensures filename.Str? && LastDot(filename.s).Some? ==>
              r == Ok(Some(filename.s[LastDot(filename.s).value + 1..]))
  {
    if !Truthy(filename) && !filename.Str? then
      Err(Error("filename must be provided and a valid string"))
    else if !filename.Str? then
      Err(TypeError("filename.split is not a function"))
    else
      var parts := Split(filename.s);
      if |parts| < 2 then Ok(None)
      else
        LastPart(filename.s);
        Ok(Some(parts[|parts| - 1]))
  }

  /**
   * updateExtension: everything up to and including the last dot, followed
   * by the new extension; a name without a dot gets `.` and the extension
   * appended. Both arguments must be non-empty strings. The source builds
   * the first error as `new Error('name', ' must be ...')`, whose message is
   * only `name`.
   */
  function UpdateExtension(name: Value, extension: Value): (r: Result<string>)
    ensures r.Ok? <==> NonEmptyString(name) && NonEmptyString(extension)
    ensures !NonEmptyString(name) ==> r == Err(Error("name"))
    ensures r.Ok? && LastDot(name.s).None? ==> r.value == name.s + "." + extension.s
    ensures r.Ok? && LastDot(name.s).Some? ==>
              r.value == name.s[..LastDot(name.s).value + 1] + extension.s
  {
    if !Truthy(name) || !name.Str? then
      Err(Error("name"))
    else if !Truthy(extension) || !extension.Str? then
      Err(Error("extension must be provided and a valid string;"))
    else
      var parts := Split(name.s);
      if |parts| < 2 then Ok(name.s + "." + extension.s)
      else
        ReplacedExtension(name.s, extension.s);
        Ok(Join(parts[..|parts| - 1]) + "." + extension.s)
  }

  /**
   * addSuffix: inserts `_` and the suffix just before the last dot. A
   * missing, empty or non-string suffix leaves the name as it is (even a
   * name without a dot); a real suffix on a name without a dot throws.
   */
  function AddSuffix(name: Value, suffix: Value): (r: Result<string>)
    ensures !NonEmptyString(name) ==> r == Err(Error("name"))
    ensures NonEmptyString(name) && !NonEmptyString(suffix) ==> r == Ok(name.s)
    ensures NonEmptyString(name) && NonEmptyString(suffix) ==> (r.Ok? <==> '.' in name.s)
    ensures NonEmptyString(name) && NonEmptyString(suffix) && r.Ok? ==>
              r.value == name.s[..LastDot(name.s).value] + "_" + suffix.s + name.s[LastDot(name.s).value..]
  {
    if !Truthy(name) || !name.Str? then
      Err(Error("name"))
    else if !Truthy(suffix) || !suffix.Str? then
      Ok(name.s)
    else
      var parts := Split(name.s);
      if |parts| < 2 then
        Err(Error("The name must be a file format (e.g. filename.jpg)"))
      else
        var extension := parts[|parts| - 1];
        var filename := Join(parts[..|parts| - 1]);
        SuffixedParts(name.s, suffix.s);
        Ok(filename + "_" + suffix.s + "." + extension)
  }

  /** Extensions that the transform stage turns into PNG. */
  const ConvertToPng: seq<string> := ["gif", "svg"]

  /**
   * The naming logic of getName. `random` is the error crypto reported
   * for the 32 random bytes, if any: that reaches the callback before
   * anything else. `digest` is the outcome of hashing them (the hex
   * digest, or the error the hash threw); `file` holds the upload's
   * `originalname` when a file descriptor is given. The extension is read
   * before the hash, so its error wins over a hashing error.
   */
  function GetName(random: Option<Error>, digest: Result<string>, file: Option<Value>): (r: Result<string>)
    ensures random.Some? ==> r == Err(random.value)
    ensures random.None? && file.Some? && GetExtension(file.value).Err? ==> r == Err(GetExtension(file.value).error)
    ensures random.None? && (file.None? || file.value.Str?) && digest.Err? ==> r == Err(digest.error)
    ensures r.Ok? ==> random.None? && digest.Ok? && |r.value| >= |digest.value| && r.value[..|digest.value|] == digest.value
    ensures random.None? && file.None? && digest.Ok? && digest.value != "" ==> r == Ok(digest.value)
  {
    if random.Some? then Err(random.value)
    else
      var extension :- if file.Some? then GetExtension(file.value) else Ok(None);
      var extension := if extension.Some? && extension.value in ConvertToPng then Some("png") else extension;
      var hex :- digest;
      var filename := hex + (if extension.Some? && extension.value != "" then "." + extension.value else "");
      assert filename[..|hex|] == hex;
      assert extension.None? ==> filename == hex;
      if filename != "" then Ok(filename) else Err(Error("failed to create filename"))
  }

  /** The extension a generated name carries for an upload named `originalname`. */
  function StoredExtension(originalname: string): Option<string>
  {
    var extension := GetExtension(Str(originalname)).value;
    if extension.None? || extension.value == "" then None
    else if extension.value in ConvertToPng then Some("png")
    else extension
  }

  // ---------------------------------------------------------------------
  // Split, Join and the last dot

  /** Joining the parts of a split gives back the string. */
  lemma {:induction false} JoinSplit(s: string)
    ensures Join(Split(s)) == s
  {
    if s != [] {
      var rest := Split(s[1..]);
      JoinSplit(s[1..]);
      if s[0] == '.' {
        assert s == "." + Join(rest);
      } else {
        var parts := [[s[0]] + rest[0]] + rest[1..];
        assert |rest| > 1 ==> Join(rest) == rest[0] + "." + Join(rest[1..]);
        assert |rest| > 1 ==> parts[1..] == rest[1..];
        assert s == [s[0]] + Join(rest);
      }
    }
  }

  lemma {:induction false} SplitDotFree(e: string)
    requires '.' !in e
    ensures Split(e) == [e]
  {
    if e != [] {
      SplitDotFree(e[1..]);
      assert e == [e[0]] + e[1..];
    }
  }

  /** Splitting at a dot followed by dot-free text splits off that text. */
  lemma {:induction false} SplitAppendDot(p: string, e: string)
    requires '.' !in e
    ensures Split(p + "." + e) == Split(p) + [e]
  {
    if p == [] {
      assert p + "." + e == "." + e;
      assert ("." + e)[1..] == e;
      SplitDotFree(e);
    } else {
      assert (p + "." + e)[1..] == p[1..] + "." + e;
      assert (p + "." + e)[0] == p[0];
      SplitAppendDot(p[1..], e);
    }
  }

  /** `split` at the last dot: the parts before it, then the extension. */
  lemma SplitAtLastDot(s: string)
    requires '.' in s
    ensures LastDot(s).Some? && Split(s) == Split(s[..LastDot(s).value]) + [s[LastDot(s).value + 1..]]
  {
    var k := LastDot(s).value;
    var p, e := s[..k], s[k + 1..];
    AfterLastDot(s);
    CutAtDot(s, k);
    SplitAppendDot(p, e);
  }

  /** The part `pop` removes is the text after the last dot. */
  lemma LastPart(s: string)
    requires '.' in s
    ensures LastDot(s).Some? && |Split(s)| >= 2
    ensures Split(s)[|Split(s)| - 1] == s[LastDot(s).value + 1..]
  {
    SplitAtLastDot(s);
  }

  /** The parts left after `pop` join back to the text before the last dot. */
  lemma InitParts(s: string)
    requires '.' in s
    ensures LastDot(s).Some? && |Split(s)| >= 2
    ensures Join(Split(s)[..|Split(s)| - 1]) == s[..LastDot(s).value]
  {
    SplitAtLastDot(s);
    var parts := Split(s);
    var front := Split(s[..LastDot(s).value]);
    assert parts[..|parts| - 1] == front;
    JoinSplit(s[..LastDot(s).value]);
  }

  /** Rebuilding the name from the popped parts with a suffix in between. */
  lemma SuffixedParts(s: string, suffix: string)
    requires '.' in s
    ensures LastDot(s).Some? && |Split(s)| >= 2
    ensures var parts := Split(s);
            Join(parts[..|parts| - 1]) + "_" + suffix + "." + parts[|parts| - 1] ==
              s[..LastDot(s).value] + "_" + suffix + s[LastDot(s).value..]
  {
    LastPart(s);
    InitParts(s);
    var k := LastDot(s).value;
    var parts := Split(s);
    Regroup(s, k, suffix);
  }

  /** Rebuilding the name from the popped parts with a new extension. */
  lemma ReplacedExtension(s: string, x: string)
    requires '.' in s
    ensures LastDot(s).Some? && |Split(s)| >= 2
    ensures Join(Split(s)[..|Split(s)| - 1]) + "." + x == s[..LastDot(s).value + 1] + x
  {
    InitParts(s);
    DotPrefix(s, LastDot(s).value, x);
  }

  lemma CutAtDot(s: string, k: nat)
    requires k < |s| && s[k] == '.'
    ensures s == s[..k] + "." + s[k + 1..]
  {
  }

  lemma DotPrefix(s: string, k: nat, x: string)
    requires k < |s| && s[k] == '.'
    ensures s[..k] + "." + x == s[..k + 1] + x
  {
    assert s[..k + 1] == s[..k] + ".";
  }

  lemma Regroup(s: string, k: nat, suffix: string)
    requires k < |s| && s[k] == '.'
    ensures s[..k] + "_" + suffix + "." + s[k + 1..] == s[..k] + "_" + suffix + s[k..]
  {
    assert s[k..] == "." + s[k + 1..];
  }

  /** The last dot of `p + "." + e` is the one before a dot-free `e`. */
  lemma LastDotOf(p: string, e: string)
    requires '.' !in e
    ensures LastDot(p + "." + e) == Some(|p|)
  {
    var s := p + "." + e;
    assert s[|p|] == '.';
    assert s[|p| + 1..] == e;
  }

  // ---------------------------------------------------------------------
  // Properties of the helpers

  /** getExtension returns what follows the last dot; a trailing dot gives `''`. */
  lemma ExtensionOfDotted(p: string, e: string)
    requires '.' !in e
    ensures GetExtension(Str(p + "." + e)) == Ok(Some(e))
  {
    LastDotOf(p, e);
    assert (p + "." + e)[|p| + 1..] == e;
  }

  /** updateExtension swaps the text after the last dot, earlier dots kept. */
  lemma UpdateExtensionOfDotted(p: string, e: string, x: string)
    requires '.' !in e && x != ""
    ensures UpdateExtension(Str(p + "." + e), Str(x)) == Ok(p + "." + x)
  {
    LastDotOf(p, e);
    assert (p + "." + e)[..|p| + 1] == p + ".";
  }

  /** addSuffix puts `_suffix` before the last dot; the suffix may hold dots. */
  lemma AddSuffixOfDotted(p: string, e: string, x: string)
    requires '.' !in e && x != ""
    ensures AddSuffix(Str(p + "." + e), Str(x)) == Ok(p + "_" + x + "." + e)
  {
    var s := p + "." + e;
    LastDotOf(p, e);
    assert s[..|p|] == p;
    assert s[|p|..] == "." + e;
    assert NonEmptyString(Str(s)) && NonEmptyString(Str(x));
    assert AddSuffix(Str(s), Str(x)).Ok?;
    assert AddSuffix(Str(s), Str(x)).value == p + "_" + x + ("." + e);
    assert p + "_" + x + ("." + e) == p + "_" + x + "." + e;
  }

  /** Suffixing never changes what getExtension reports. */
  lemma AddSuffixKeepsExtension(name: Value, suffix: Value)
    requires AddSuffix(name, suffix).Ok?
    ensures GetExtension(Str(AddSuffix(name, suffix).value)) == GetExtension(name)
  {
    if NonEmptyString(suffix) {
      var s := name.s;
      var k := LastDot(s).value;
      var e := s[k + 1..];
      var front := s[..k] + "_" + suffix.s;
      AfterLastDot(s);
      Regroup(s, k, suffix.s);
      ExtensionOfDotted(front, e);
    }
  }

  /** A missing (or empty, or non-string) suffix is a no-op even after a real one. */
  lemma AddSuffixNoOpIdempotent(name: Value, suffix: Value, none: Value)
    requires AddSuffix(name, suffix).Ok? && !NonEmptyString(none)
    ensures AddSuffix(Str(AddSuffix(name, suffix).value), none) == AddSuffix(name, suffix)
  {
    if NonEmptyString(suffix) {
      var s := name.s;
      var k := LastDot(s).value;
      assert AddSuffix(name, suffix).value[k] == '_';
    }
  }

  /** After updateExtension with a dot-free extension, getExtension reports it. */
  lemma UpdateExtensionSetsExtension(name: Value, x: string)
    requires NonEmptyString(name) && x != "" && '.' !in x
    ensures GetExtension(Str(UpdateExtension(name, Str(x)).value)) == Ok(Some(x))
  {
    var s := name.s;
    if LastDot(s).None? {
      ExtensionOfDotted(s, x);
    } else {
      var k := LastDot(s).value;
      assert s[..k + 1] + x == s[..k] + "." + x;
      ExtensionOfDotted(s[..k], x);
    }
  }

  /**
   * Swapping the extension and then restoring the old one gives back the
   * original name, provided that name has a non-empty extension; with a
   * trailing dot the old extension is `''`, and restoring it throws.
   */
  lemma UpdateExtensionRoundTrip(s: string, x: string)
    requires x != "" && '.' !in x
    requires GetExtension(Str(s)).value.Some?
    ensures var old_ := GetExtension(Str(s)).value.value;
            var swapped := UpdateExtension(Str(s), Str(x)).value;
            UpdateExtension(Str(swapped), Str(old_)) ==
              if old_ != "" then Ok(s) else Err(Error("extension must be provided and a valid string;"))
  {
    var k := LastDot(s).value;
    var e := s[k + 1..];
    assert s == s[..k] + "." + e;
    assert s[..k + 1] == s[..k] + ".";
    UpdateExtensionOfDotted(s[..k], e, x);
    if e != "" {
      UpdateExtensionOfDotted(s[..k], x, e);
    }
  }

  /** `'.' + extension` when there is an extension, else nothing. */
  function Dotted(extension: Option<string>): string
  {
    if extension.Some? then "." + extension.value else ""
  }

  /**
   * A generated name is the digest plus the stored extension: gif and svg
   * become png, and no extension is added when the upload has none or an
   * empty one, so getExtension of the result is exactly StoredExtension.
   */
  lemma GetNameExtension(hex: string, originalname: string)
    requires hex != "" && '.' !in hex
    ensures GetName(None, Ok(hex), Some(Str(originalname))) == Ok(hex + Dotted(StoredExtension(originalname)))
    ensures GetExtension(Str(hex + Dotted(StoredExtension(originalname)))) == Ok(StoredExtension(originalname))
  {
    GetNameShape(hex, originalname);
    StoredExtensionDotFree(originalname);
    ExtensionOfGenerated(hex, StoredExtension(originalname));
  }

  lemma ExtensionOfGenerated(hex: string, ext: Option<string>)
    requires '.' !in hex && (ext.Some? ==> '.' !in ext.value)
    ensures GetExtension(Str(hex + Dotted(ext))) == Ok(ext)
  {
    if ext.Some? {
      ExtensionOfDotted(hex, ext.value);
      assert hex + Dotted(ext) == hex + "." + ext.value;
    } else {
      assert hex + Dotted(ext) == hex;
    }
  }

  lemma GetNameShape(hex: string, originalname: string)
    requires hex != ""
    ensures GetName(None, Ok(hex), Some(Str(originalname))) == Ok(hex + Dotted(StoredExtension(originalname)))
  {
  }

  lemma StoredExtensionDotFree(originalname: string)
    ensures StoredExtension(originalname).Some? ==> '.' !in StoredExtension(originalname).value
  {
    var raw := GetExtension(Str(originalname)).value;
    if raw.Some? && raw.value in ConvertToPng {
      assert StoredExtension(originalname) == Some("png");
    }
  }
}
