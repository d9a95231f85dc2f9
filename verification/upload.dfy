/**
 The two upload decisions in src/index.ts that are pure: which files the
 multer filter accepts, judged by their MIME type, and the name a stored
 file gets on disk. The unique id comes from `uniqid()` and is an input here.
 */
module Upload {

  import opened Options
  import opened Regex

  /** `/^image\/(png|jpg|jpeg)/`: anchored at the start only, so whatever
      follows the subtype is allowed. */
  const MimePattern: Regex :=
    Cat(Lit("image/"), Alt(Alt(Lit("png"), Lit("jpg")), Lit("jpeg")))

  /** The three accepted MIME type prefixes. */
  const ImagePrefixes: set<string> := {"image/png", "image/jpg", "image/jpeg"}

  lemma MimePatternLanguage()
    ensures Lang(MimePattern) == ImagePrefixes
  {
    var subtypes := Alt(Alt(Lit("png"), Lit("jpg")), Lit("jpeg"));
    assert Lang(subtypes) == {"png", "jpg", "jpeg"};
    assert "image/png" == "image/" + "png";
    assert "image/jpg" == "image/" + "jpg";
    assert "image/jpeg" == "image/" + "jpeg";
  }

  /** `fileFilter`: the filter never reports an error, and lets a file
      through exactly when its MIME type starts with `image/png`,
      `image/jpg` or `image/jpeg`, case-sensitively. */
  function AcceptsUpload(mimetype: string): (ok: bool)
    ensures ok <==> "image/png" <= mimetype || "image/jpg" <= mimetype || "image/jpeg" <= mimetype
  {
    MimePatternLanguage();
    TestAnchoredIffPrefix(MimePattern, mimetype);
    TestAnchored(MimePattern, mimetype)
  }

  /** Because the pattern has no end anchor, anything may follow an
      accepted subtype. */
  lemma AcceptsAnySuffix()
    ensures AcceptsUpload("image/pngX")
    ensures AcceptsUpload("image/jpeg;charset=x")
  {
  }

  /** The match is case-sensitive and needs a complete subtype. */
  lemma RejectsOtherTypes()
    ensures !AcceptsUpload("image/gif")
    ensures !AcceptsUpload("IMAGE/PNG")
    ensures !AcceptsUpload("image/jp")
  {
    var gif, upper, short := "image/gif", "IMAGE/PNG", "image/jp";
    assert gif[6] == 'g' && upper[0] == 'I' && |short| == 8;
  }

  /** Because the pattern has a start anchor, nothing may precede
      `image/`. */
  lemma StartAnchorRejects()
    ensures !AcceptsUpload("text/image/png")
  {
    var s := "text/image/png";
    assert s[0] == 't';
  }

  /** The same pattern without the start anchor would accept a MIME type
      that merely contains `image/png`. */
  lemma UnanchoredWouldAccept()
    ensures TestUnanchored(MimePattern, "text/image/png")
  {
    var s := "text/image/png";
    TestUnanchoredIffInfix(MimePattern, s);
    MimePatternLanguage();
    assert s[5..] == "image/png";
    assert "image/png" in Lang(MimePattern) && "image/png" <= s[5..];
  }

  /** The `filename` callback: `${id}-${originalname}`. */
  function StoredName(id: string, originalName: string): (name: string)
    ensures |name| == |id| + 1 + |originalName|
    ensures id + "-" <= name
    ensures name[|id| + 1..] == originalName
  {
    id + "-" + originalName
  }

  /** The position of the first occurrence of `c` in `s`, if any. */
  function FirstIndexOf(s: string, c: char): (r: Option<nat>)
    ensures r.None? <==> c !in s
    ensures r.Some? ==> r.value < |s| && s[r.value] == c && forall j :: 0 <= j < r.value ==> s[j] != c
  {
    if |s| == 0 then None
    else if s[0] == c then Some(0)
    else
      match FirstIndexOf(s[1..], c)
      case None => None
      case Some(k) => Some(k + 1)
  }

  /** Splits a stored name at its first `-` into the id and the original
      name: the inverse of `StoredName` for ids without a dash. */
  function ParseStoredName(name: string): (r: Option<(string, string)>)
    ensures r.None? <==> '-' !in name
    ensures r.Some? ==> '-' !in r.value.0 && StoredName(r.value.0, r.value.1) == name
  {
    match FirstIndexOf(name, '-')
    case None => None
    case Some(k) =>
      assert name == name[..k] + "-" + name[k + 1..];
      Some((name[..k], name[k + 1..]))
  }

  /** For an id with no dash, as `uniqid` produces, the stored name
      determines the id and the original name. */
  lemma {:induction false} StoredNameRoundTrip(id: string, originalName: string)
    requires '-' !in id
    ensures ParseStoredName(StoredName(id, originalName)) == Some((id, originalName))
  {
    var name := StoredName(id, originalName);
    assert name[|id|] == '-';
    assert name[..|id|] == id;
    var k := FirstIndexOf(name, '-').value;
    assert k == |id|;
  }

  /** Two uploads with different dash-free ids never get the same stored
      name, whatever their original names are. */
  lemma DistinctIdsDistinctNames(id1: string, name1: string, id2: string, name2: string)
    requires '-' !in id1 && '-' !in id2 && id1 != id2
    ensures StoredName(id1, name1) != StoredName(id2, name2)
  {
    StoredNameRoundTrip(id1, name1);
    StoredNameRoundTrip(id2, name2);
  }

  /** Without the dash-free assumption on ids the naming scheme is not
      injective: two different uploads can collide. */
  lemma DashInIdCollides()
    ensures StoredName("a-b", "c.png") == StoredName("a", "b-c.png")
  {
  }
}
