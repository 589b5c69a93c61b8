/** The upload middleware configured in server.js: which multipart file parts
    are admitted into the upload directory, and the name they are stored under. */
module Upload {
  import opened JsText

  /** The only file field `upload.single` accepts. */
  const FieldName: JsString := Lit("contract")

  /** `limits.fileSize`: 10 MiB. */
  const MaxFileSize: nat := 10 * 1024 * 1024

  /** The media types the file filter lets through. */
  const AllowedMimes: seq<JsString> :=
    [Lit("application/pdf"), Lit("image/jpeg"), Lit("image/png"), Lit("image/jpg")]

  /** A file part of the incoming multipart body, as the middleware sees it. */
  datatype FilePart = FilePart(fieldname: JsString, originalname: JsString, mimetype: JsString, size: nat)

  /** Why the middleware refuses a part. Each one is handed to Express's error
      handling; the route body is not entered. */
  datatype Rejection =
    | UnexpectedField  // a file under another field name than `contract`
    | UnsupportedType  // the file filter's error
    | TooLarge         // the size limit's error

  datatype Admission = Admitted | Rejected(reason: Rejection)

  /** The middleware's decision on one part. The field is checked first, then the
      file filter runs before any byte is stored, and the size limit is enforced
      while the file is written. */
  function Admit(part: FilePart): (d: Admission)
    ensures d.Admitted? <==>
              part.fieldname == FieldName && part.mimetype in AllowedMimes && part.size <= MaxFileSize
    ensures d == Rejected(UnsupportedType) ==> part.mimetype !in AllowedMimes
    ensures d == Rejected(TooLarge) ==> part.mimetype in AllowedMimes && part.size > MaxFileSize
  {
    if part.fieldname != FieldName then Rejected(UnexpectedField)
    else if part.mimetype !in AllowedMimes then Rejected(UnsupportedType)
    else if part.size > MaxFileSize then Rejected(TooLarge)
    else Admitted
  }

  /** The name the disk storage gives an admitted file: the millisecond clock,
      a dash, a random integer, a dash and the client's file name. The clock
      (`Date.now()`) and the rounded random number are parameters. */
  function StoredName(now: nat, random: nat, originalname: JsString): (name: JsString)
    ensures |name| > |originalname| + 1
    ensures name[|name| - |originalname| - 1..] == [Dash] + originalname
  {
    Decimal(now) + [Dash] + Decimal(random) + [Dash] + originalname
  }

  /** Where the disk storage writes the file: `path.join(dir, name)`. */
  function StoredPath(dir: JsString, name: JsString): (p: JsString)
    ensures |p| == |dir| + 1 + |name|
    ensures p[..|dir|] == dir && p[|dir|] == Slash && p[|dir| + 1..] == name
  {
    dir + [Slash] + name
  }

  /** The length of the run of digits that `s` starts with. */
  function LeadingDigits(s: JsString): (n: nat)
    ensures n <= |s|
  {
    if s == [] || !IsDigit(s[0]) then 0 else 1 + LeadingDigits(s[1..])
  }

  /** A digit string followed by a dash is exactly the leading digit run. */
  lemma {:induction false} LeadingDigitsBeforeDash(x: JsString, r: JsString)
    requires AllDigits(x)
    ensures LeadingDigits(x + [Dash] + r) == |x|
  {
    if x != [] {
      assert (x + [Dash] + r)[1..] == x[1..] + [Dash] + r;
      LeadingDigitsBeforeDash(x[1..], r);
    }
  }

  /** A digit string followed by a dash can be split off unambiguously. */
  lemma SplitAtDash(x: JsString, r: JsString, x': JsString, r': JsString)
    requires AllDigits(x) && AllDigits(x')
    requires x + [Dash] + r == x' + [Dash] + r'
    ensures x == x' && r == r'
  {
    var s := x + [Dash] + r;
    LeadingDigitsBeforeDash(x, r);
    LeadingDigitsBeforeDash(x', r');
    assert x == s[..|x|] == x';
    assert r == s[|x| + 1..] == r';
  }

  /** The stored name determines the clock reading, the random number and the
      original name, so two uploads collide only when all three coincide. */
  lemma StoredNameInjective(now: nat, random: nat, o: JsString, now': nat, random': nat, o': JsString)
    requires StoredName(now, random, o) == StoredName(now', random', o')
    ensures now == now' && random == random' && o == o'
  {
    var rest := Decimal(random) + [Dash] + o;
    var rest' := Decimal(random') + [Dash] + o';
    assert StoredName(now, random, o) == Decimal(now) + [Dash] + rest;
    assert StoredName(now', random', o') == Decimal(now') + [Dash] + rest';
    SplitAtDash(Decimal(now), rest, Decimal(now'), rest');
    SplitAtDash(Decimal(random), o, Decimal(random'), o');
  }

  /** Distinct names in the same directory give distinct paths. */
  lemma StoredPathInjective(dir: JsString, name: JsString, name': JsString)
    requires StoredPath(dir, name) == StoredPath(dir, name')
    ensures name == name'
  {
  }
}
