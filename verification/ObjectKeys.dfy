/** Names of image objects: presigned staging keys under tmp/ and the canonical keys they become. */
module ObjectKeys {
  import opened Options
  import opened Uuid
  import opened Text

  const STAGING_PREFIX := "tmp/"

  datatype Directory = Profiles | Campaigns

  function Head(directory: Directory): string {
    match directory
    case Profiles => "profiles/"
    case Campaigns => "campaigns/"
  }

  function StagingHead(directory: Directory): string {
    STAGING_PREFIX + Head(directory)
  }

  const EXTENSIONS: seq<string> := [".jpg", ".png", ".webp"]

  /** stagingImageObjectKey. */
  function StagingKey(directory: Directory, id: UUID, extension: string): string {
    StagingHead(directory) + (Uuid.ToString(id) + extension)
  }

  /** profileImageExtensionFromName: the first listed extension that ends the name. */
  function ExtensionOf(name: string): (r: Option<string>)
    ensures r.Some? ==> r.value in EXTENSIONS && HasSuffix(name, r.value)
    ensures r.None? ==> forall e :: e in EXTENSIONS ==> !HasSuffix(name, e)
  {
    if HasSuffix(name, ".jpg") then Some(".jpg")
    else if HasSuffix(name, ".png") then Some(".png")
    else if HasSuffix(name, ".webp") then Some(".webp")
    else None
  }

  predicate ContainsDotDot(s: string) {
    exists i :: 0 <= i < |s| - 1 && s[i] == '.' && s[i + 1] == '.'
  }

  /** One path segment: a UUID followed by a known extension. */
  predicate ImageName(rest: string) {
    && rest != ""
    && '/' !in rest
    && ExtensionOf(rest).Some?
    && Uuid.Parse(rest[..|rest| - |ExtensionOf(rest).value|]).Some?
  }

  /** CanonicalImageObjectKey; None stands for ErrInvalidImageObjectKey. */
  function Canonical(stagingKey: string, directory: Directory): Option<string> {
    var key := TrimSpace(stagingKey);
    var prefix := StagingHead(directory);
    if key == "" || HasPrefix(key, "/") || ContainsDotDot(key) then None
    else if !HasPrefix(key, prefix) then None
    else if !ImageName(key[|prefix|..]) then None
    else Some(Head(directory) + key[|prefix|..])
  }

  /** A key made of tmp/, the directory, a UUID text and a known extension. */
  predicate IsStagingPath(key: string, directory: Directory, name: string, extension: string) {
    && extension in {".jpg", ".png", ".webp"} && Uuid.Parse(name).Some? && '/' !in name
    && key == StagingHead(directory) + (name + extension)
  }

  lemma StagingHeads()
    ensures StagingHead(Profiles) == "tmp/profiles/" && StagingHead(Campaigns) == "tmp/campaigns/"
  {
  }

  /** Exactly the accepted keys: once trimmed, tmp/, the directory, a UUID text without slash and a known
      extension, with no two dots in a row. */
  lemma AcceptedExactly(stagingKey: string, directory: Directory)
    ensures Canonical(stagingKey, directory).Some?
            <==> && !ContainsDotDot(Text.TrimSpace(stagingKey))
                 && exists name: string, extension: string :: IsStagingPath(Text.TrimSpace(stagingKey), directory, name, extension)
  {
    hide TrimSpace, ContainsDotDot, ImageName, IsStagingPath;
    var key := TrimSpace(stagingKey);
    if Canonical(stagingKey, directory).Some? {
      AcceptedPath(key, directory);
    }
    if name: string, extension: string :| IsStagingPath(key, directory, name, extension) {
      PathAccepted(key, directory, name, extension);
    }
  }

  lemma AcceptedPath(key: string, directory: Directory)
    requires HasPrefix(key, StagingHead(directory)) && ImageName(key[|StagingHead(directory)|..])
    ensures exists name: string, extension: string :: IsStagingPath(key, directory, name, extension)
  {
    hide Uuid.Parse, StagingHead;
    var rest := key[|StagingHead(directory)|..];
    var extension := ExtensionOf(rest).value;
    var name := rest[..|rest| - |extension|];
    assert rest == name + extension;
    assert IsStagingPath(key, directory, name, extension);
  }

  lemma PathAccepted(key: string, directory: Directory, name: string, extension: string)
    requires IsStagingPath(key, directory, name, extension)
    ensures key != "" && !HasPrefix(key, "/") && HasPrefix(key, StagingHead(directory))
    ensures ImageName(key[|StagingHead(directory)|..])
  {
    hide Uuid.Parse, ImageName;
    AcceptedName(name, extension);
    var head := StagingHead(directory);
    assert key[|head|..] == name + extension;
    assert key[0] == head[0] == STAGING_PREFIX[0];
  }

  lemma AcceptedName(name: string, extension: string)
    requires extension in {".jpg", ".png", ".webp"} && Uuid.Parse(name).Some? && '/' !in name
    ensures ImageName(name + extension)
  {
    hide Uuid.Parse;
    var rest := name + extension;
    assert rest[|name|..] == extension;
    assert rest[|rest| - 1] == extension[|extension| - 1];
    assert ExtensionOf(rest) == Some(extension);
    assert rest[..|rest| - |extension|] == name;
  }

  /** The three name spaces of the bucket never meet. */
  lemma NameSpacesDisjoint(key: string)
    ensures !(HasPrefix(key, "tmp/") && HasPrefix(key, "profiles/"))
    ensures !(HasPrefix(key, "tmp/") && HasPrefix(key, "campaigns/"))
    ensures !(HasPrefix(key, "profiles/") && HasPrefix(key, "campaigns/"))
  {
    assert HasPrefix(key, "tmp/") ==> key[0] == "tmp/"[0];
    assert HasPrefix(key, "profiles/") ==> key[0] == "profiles/"[0];
    assert HasPrefix(key, "campaigns/") ==> key[0] == "campaigns/"[0];
  }

  lemma OnlyOneExtension(id: UUID, extension: string)
    requires extension in EXTENSIONS
    ensures ExtensionOf(Uuid.ToString(id) + extension) == Some(extension)
  {
    var name := Uuid.ToString(id) + extension;
    assert name[36..] == extension;
    assert HasSuffix(name, extension);
    assert name[|name| - 1] == extension[|extension| - 1];
    assert forall e :: e in EXTENSIONS && HasSuffix(name, e) ==> name[|name| - 1] == e[|e| - 1];
  }

  lemma PresignedImageName(id: UUID, extension: string)
    requires extension in EXTENSIONS
    ensures ImageName(Uuid.ToString(id) + extension)
  {
    hide Uuid.Parse, Uuid.ToString;
    var name := Uuid.ToString(id);
    var rest := name + extension;
    OnlyOneExtension(id, extension);
    assert '/' !in name && '/' !in extension;
    assert rest[..|rest| - |extension|] == name;
    ParseToString(id);
  }

  /** A presigned key holds exactly one dot, the one that starts its extension. */
  lemma OneDot(directory: Directory, id: UUID, extension: string)
    requires extension in EXTENSIONS
    ensures !ContainsDotDot(StagingKey(directory, id, extension))
  {
    hide Uuid.ToString;
    var head := StagingHead(directory);
    var name := Uuid.ToString(id);
    assert '.' !in head by {
      assert directory == Profiles ==> head == "tmp/profiles/";
      assert directory == Campaigns ==> head == "tmp/campaigns/";
    }
    DotAfter(head + name, extension);
    assert head + name + extension == StagingKey(directory, id, extension);
  }

  lemma DotAfter(before: string, extension: string)
    requires '.' !in before && extension in EXTENSIONS
    ensures !ContainsDotDot(before + extension)
  {
    var s := before + extension;
    forall i | 0 <= i < |s| - 1 && s[i] == '.'
      ensures s[i + 1] != '.'
    {
      assert s[i] == extension[i - |before|] && s[i + 1] == extension[i + 1 - |before|];
    }
  }

  lemma LettersAreNoSpace()
    ensures forall c :: 'a' <= c <= 'z' ==> !IsSpace(c)
  {
  }

  lemma PresignedTrimmed(directory: Directory, id: UUID, extension: string)
    requires extension in EXTENSIONS
    ensures
      var key := StagingKey(directory, id, extension);
      TrimSpace(key) == key && key != "" && !HasPrefix(key, "/")
  {
    hide Uuid.ToString, TrimSpace, IsSpace;
    var key := StagingKey(directory, id, extension);
    assert key[0] == STAGING_PREFIX[0] == 't' && key[|key| - 1] == extension[|extension| - 1];
    assert extension[|extension| - 1] in {'g', 'p'};
    LettersAreNoSpace();
  }

  /** A key handed out by a presign call is accepted for its own directory, and becomes the same
      path without tmp/. */
  lemma PresignedCanonicalises(directory: Directory, id: UUID, extension: string)
    requires extension in EXTENSIONS
    ensures Canonical(StagingKey(directory, id, extension), directory)
            == Some(Head(directory) + Uuid.ToString(id) + extension)
  {
    hide Uuid.ToString, ContainsDotDot, ImageName, TrimSpace;
    var head := StagingHead(directory);
    var rest := Uuid.ToString(id) + extension;
    PresignedTrimmed(directory, id, extension);
    OneDot(directory, id, extension);
    PresignedImageName(id, extension);
    assert (head + rest)[|head|..] == rest;
    assert Head(directory) + rest == Head(directory) + Uuid.ToString(id) + extension;
  }

  /** and rejected for the other directory. */
  lemma PresignedRejectedElsewhere(directory: Directory, other: Directory, id: UUID, extension: string)
    requires extension in EXTENSIONS && other != directory
    ensures Canonical(StagingKey(directory, id, extension), other) == None
  {
    hide Uuid.ToString, ContainsDotDot, ImageName, TrimSpace;
    var key := StagingKey(directory, id, extension);
    PresignedTrimmed(directory, id, extension);
    assert key[4] == StagingHead(directory)[4] == Head(directory)[0];
    assert StagingHead(other)[4] == Head(other)[0];
  }

  /** A canonical key is its staging key without tmp/. */
  lemma CanonicalDropsPrefix(stagingKey: string, directory: Directory)
    requires Canonical(stagingKey, directory).Some?
    ensures
      var canonical := Canonical(stagingKey, directory).value;
      TrimSpace(stagingKey) == STAGING_PREFIX + canonical && HasPrefix(canonical, Head(directory))
  {
    hide ContainsDotDot, ImageName, TrimSpace;
    var key := TrimSpace(stagingKey);
    var rest := key[|StagingHead(directory)|..];
    assert key == StagingHead(directory) + rest;
    assert StagingHead(directory) + rest == STAGING_PREFIX + (Head(directory) + rest);
  }

  /** Two staging keys with one canonical key are the same key up to surrounding space. */
  lemma CanonicalInjective(a: string, b: string, directory: Directory)
    requires Canonical(a, directory).Some? && Canonical(a, directory) == Canonical(b, directory)
    ensures TrimSpace(a) == TrimSpace(b)
  {
    hide Canonical;
    CanonicalDropsPrefix(a, directory);
    CanonicalDropsPrefix(b, directory);
  }

  /** Promotion moves an object from tmp/ into its directory: the two keys differ, and the
      canonical key lies in no other name space. */
  lemma CanonicalLeavesStaging(stagingKey: string, directory: Directory)
    requires Canonical(stagingKey, directory).Some?
    ensures
      var canonical := Canonical(stagingKey, directory).value;
      && HasPrefix(TrimSpace(stagingKey), STAGING_PREFIX)
      && !HasPrefix(canonical, STAGING_PREFIX)
      && TrimSpace(canonical) == canonical
      && (directory == Profiles ==> HasPrefix(canonical, "profiles/") && !HasPrefix(canonical, "campaigns/"))
      && (directory == Campaigns ==> HasPrefix(canonical, "campaigns/") && !HasPrefix(canonical, "profiles/"))
  {
    hide Canonical, TrimSpace, IsSpace;
    var key := TrimSpace(stagingKey);
    var canonical := Canonical(stagingKey, directory).value;
    CanonicalDropsPrefix(stagingKey, directory);
    NameSpacesDisjoint(canonical);
    LettersAreNoSpace();
    assert canonical[|canonical| - 1] == key[|key| - 1];
    assert canonical[0] == Head(directory)[0] && Head(directory)[0] in {'p', 'c'};
  }
}
