/**
 * The four-part version numbers written into a Windows version resource
 * (`filevers` and `prodvers`): the form's "1.2.3.4" text is split on '.'
 * and each part read with `int()`; any other number of parts gives the
 * default (1, 0, 0, 0).
 */
module Version {
  import opened Wrappers
  import opened Text

  datatype VersionTuple = VersionTuple(major: int, minor: int, patch: int, build: int)

  /** The `ValueError` `int()` raises on the first part that is not an integer. */
  datatype VersionError = NotAnInteger(part: string)

  const DefaultVersion := VersionTuple(1, 0, 0, 0)

  /** The form's initial value for both version fields. */
  const InitialVersionText := "1.0.0.0"

  /** Every part is text `int()` accepts. */
  predicate AllIntegers(parts: seq<string>)
  {
    forall k :: 0 <= k < |parts| ==> ParseInt(parts[k]).Some?
  }

  /** `part` is the first of `parts` that `int()` refuses: every part before it reads. */
  predicate FirstRefused(parts: seq<string>, part: string)
  {
    exists k :: 0 <= k < |parts| && parts[k] == part && ParseInt(part).None? && AllIntegers(parts[..k])
  }

  /**
   * `tuple(int(v) for v in parts)`: the parts are read left to right and
   * the first one `int()` refuses raises, so the error names it.
   */
  function ParseParts(parts: seq<string>): (r: Result<seq<int>, VersionError>)
    ensures r.Ok? <==> AllIntegers(parts)
    ensures r.Ok? ==> |r.value| == |parts| &&
                      forall k :: 0 <= k < |parts| ==> ParseInt(parts[k]) == Some(r.value[k])
    ensures r.Err? ==> r.error.part in parts && ParseInt(r.error.part).None?
    ensures r.Err? ==> FirstRefused(parts, r.error.part)
  {
    if parts == [] then Ok([])
    else
      match ParseInt(parts[0])
      case None =>
        assert parts[..0] == [];
        Err(NotAnInteger(parts[0]))
      case Some(n) =>
        match ParseParts(parts[1..])
        case Err(e) =>
          var k :| 0 <= k < |parts[1..]| && parts[1..][k] == e.part && AllIntegers(parts[1..][..k]);
          assert parts[1..][k] == parts[k + 1];
          var before := parts[..k + 1];
          assert AllIntegers(before) by {
            forall j | 0 <= j < |before| ensures ParseInt(before[j]).Some? {
              if j > 0 { assert before[j] == parts[1..][..k][j - 1]; }
            }
          }
          Err(e)
        case Ok(rest) =>
          var r := [n] + rest;
          assert forall k :: 0 <= k < |parts| ==> ParseInt(parts[k]) == Some(r[k]) by {
            forall k | 0 <= k < |parts| ensures ParseInt(parts[k]) == Some(r[k]) {
              if k > 0 {
                assert parts[k] == parts[1..][k - 1] && r[k] == rest[k - 1];
              }
            }
          }
          Ok(r)
  }

  /**
   * `tuple(int(v) for v in s.split('.')) if len(...) == 4 else (1, 0, 0, 0)`:
   * four parts are read as integers, any other count gives the default.
   */
  function ParseVersion(s: string): (r: Result<VersionTuple, VersionError>)
    ensures |Split(s, '.')| != 4 ==> r == Ok(DefaultVersion)
    ensures r.Err? <==> |Split(s, '.')| == 4 && !AllIntegers(Split(s, '.'))
    ensures r.Err? ==> r.error.part in Split(s, '.') && ParseInt(r.error.part).None?
    ensures r.Err? ==> FirstRefused(Split(s, '.'), r.error.part)
    ensures r.Ok? && |Split(s, '.')| == 4 ==>
              var p := Split(s, '.');
              ParseInt(p[0]) == Some(r.value.major) && ParseInt(p[1]) == Some(r.value.minor) &&
              ParseInt(p[2]) == Some(r.value.patch) && ParseInt(p[3]) == Some(r.value.build)
  {
    var p := Split(s, '.');
    if |p| != 4 then Ok(DefaultVersion)
    else
      match ParseParts(p)
      case Err(e) => Err(e)
      case Ok(n) => Ok(VersionTuple(n[0], n[1], n[2], n[3]))
  }

  /** The text `str()` and `'.'.join` give for a version tuple. */
  function FormatVersion(v: VersionTuple): string
  {
    Join([IntToString(v.major), IntToString(v.minor), IntToString(v.patch), IntToString(v.build)], ".")
  }

  lemma NoDotInInt(n: int)
    ensures '.' !in IntToString(n)
  {
    var d := NatToString(if n < 0 then -n else n);
    assert forall k :: 0 <= k < |d| ==> d[k] != '.';
    if n < 0 {
      assert IntToString(n) == "-" + d;
      assert forall k :: 0 <= k < |IntToString(n)| ==> IntToString(n)[k] != '.' by {
        forall k | 0 <= k < |IntToString(n)| ensures IntToString(n)[k] != '.' {
          if k > 0 { assert IntToString(n)[k] == d[k - 1]; }
        }
      }
    }
  }

  /** Every version tuple, written out as "a.b.c.d", reads back as itself. */
  lemma {:induction false} VersionRoundTrip(v: VersionTuple)
    ensures ParseVersion(FormatVersion(v)) == Ok(v)
  {
    var parts := [IntToString(v.major), IntToString(v.minor), IntToString(v.patch), IntToString(v.build)];
    NoDotInInt(v.major);
    NoDotInInt(v.minor);
    NoDotInInt(v.patch);
    NoDotInInt(v.build);
    SplitJoin(parts, '.');
    assert Split(FormatVersion(v), '.') == parts;
    IntRoundTrip(v.major);
    IntRoundTrip(v.minor);
    IntRoundTrip(v.patch);
    IntRoundTrip(v.build);
  }

  /** The form's initial "1.0.0.0" is the default tuple. */
  lemma InitialVersion()
    ensures ParseVersion(InitialVersionText) == Ok(DefaultVersion)
  {
    assert IntToString(1) == "1" && IntToString(0) == "0";
    assert FormatVersion(DefaultVersion) == Join(["1", "0", "0", "0"], ".");
    assert Join(["1", "0", "0", "0"], ".") == InitialVersionText;
    VersionRoundTrip(DefaultVersion);
  }

  /**
   * `generate_version_file` reads the file version first and the product
   * version second; the first `ValueError` aborts the whole file.
   */
  function VersionPair(fileVersion: string, productVersion: string)
    : (r: Result<(VersionTuple, VersionTuple), VersionError>)
    ensures r.Ok? <==> ParseVersion(fileVersion).Ok? && ParseVersion(productVersion).Ok?
    ensures r.Ok? ==> r.value == (ParseVersion(fileVersion).value, ParseVersion(productVersion).value)
    ensures ParseVersion(fileVersion).Err? ==> r == Err(ParseVersion(fileVersion).error)
    ensures ParseVersion(fileVersion).Ok? && ParseVersion(productVersion).Err? ==>
              r == Err(ParseVersion(productVersion).error)
  {
    match ParseVersion(fileVersion)
    case Err(e) => Err(e)
    case Ok(f) =>
      match ParseVersion(productVersion)
      case Err(e) => Err(e)
      case Ok(p) => Ok((f, p))
  }
}
