/** The credential references of src/bin/injector.rs: Kind/name items, alone or comma-separated. */
module CredentialRef {
  import opened Wrappers
  import opened Text

  datatype CredentialKind = Certificate | ExternalCertificate

  datatype Reference = Reference(kind: CredentialKind, name: string)

  datatype ParseError =
    | NotKindSlashName(raw: string)
    | InvalidName(raw: string)
    | UnsupportedKind(kind: string)
    | EmptyItem
    | NoContainer
    | EmptyContainer

  function KindName(kind: CredentialKind): string {
    match kind
    case Certificate => "Certificate"
    case ExternalCertificate => "ExternalCertificate"
  }

  /** `CredentialRef::parse`. */
  function Parse(raw: string): Result<Reference, ParseError> {
    match SplitOnce(Trim(raw), '/')
    case None => Err(NotKindSlashName(raw))
    case Some((kind, name)) =>
      if name == "" || '/' in name then Err(InvalidName(raw))
      else if kind == "Certificate" then Ok(Reference(Certificate, name))
      else if kind == "ExternalCertificate" then Ok(Reference(ExternalCertificate, name))
      else Err(UnsupportedKind(kind))
  }

  function Print(ref: Reference): string {
    KindName(ref.kind) + ['/'] + ref.name
  }

  /** One item of a comma-separated list. */
  function ParseItem(raw: string): Result<Reference, ParseError> {
    if Trim(raw) == "" then Err(EmptyItem) else Parse(raw)
  }

  /** Collecting the items stops at the first error. */
  function ParseItems(items: seq<string>): Result<seq<Reference>, ParseError> {
    if items == [] then Ok([])
    else
      match ParseItem(items[0])
      case Err(e) => Err(e)
      case Ok(ref) =>
        match ParseItems(items[1..])
        case Err(e) => Err(e)
        case Ok(rest) => Ok([ref] + rest)
  }

  /** `parse_list`; an absent annotation is an empty list. */
  function ParseList(value: Option<string>): Result<seq<Reference>, ParseError> {
    match value
    case None => Ok([])
    case Some(text) => ParseItems(Split(text, ','))
  }

  function PrintAll(refs: seq<Reference>): (r: seq<string>)
    ensures |r| == |refs| && forall i :: 0 <= i < |r| ==> r[i] == Print(refs[i])
  {
    if refs == [] then [] else [Print(refs[0])] + PrintAll(refs[1..])
  }

  datatype Annotations = Annotations(
    container: Option<string>,
    signing: Option<string>,
    trustAnchors: Option<string>,
    certificateChain: Option<string>)

  datatype Request = Request(
    container: string,
    signing: Option<Reference>,
    trustAnchors: seq<Reference>,
    certificateChain: seq<Reference>)

  /** `parse_credential_request`: None when no credential is asked for. */
  function ParseRequest(a: Annotations): Result<Option<Request>, ParseError> {
    if a.signing.None? && a.trustAnchors.None? && a.certificateChain.None? then Ok(None)
    else if a.container.None? then Err(NoContainer)
    else if Trim(a.container.value) == "" then Err(EmptyContainer)
    else
      var signing := if a.signing.Some? then Parse(a.signing.value) else Err(EmptyItem);
      var anchors := ParseList(a.trustAnchors);
      var chain := ParseList(a.certificateChain);
      if a.signing.Some? && signing.Err? then Err(signing.error)
      else if anchors.Err? then Err(anchors.error)
      else if chain.Err? then Err(chain.error)
      else Ok(Some(Request(Trim(a.container.value), if a.signing.Some? then Some(signing.value) else None,
                           anchors.value, chain.value)))
  }

  // ---------------------------------------------------------------------------------------
  // Printing and parsing back
  // ---------------------------------------------------------------------------------------

  /** The names a printed reference can carry: not empty, no slash, nothing to trim at the end. */
  predicate GoodName(name: string) {
    name != "" && '/' !in name && !IsSpace(name[|name| - 1])
  }

  /** Parsing depends on the trimmed text only. */
  lemma ParseTrimmed(raw: string, ref: Reference)
    requires Trim(raw) == Print(ref)
    ensures Parse(raw) == if ref.name == "" || '/' in ref.name then Err(InvalidName(raw)) else Ok(ref)
  {
    hide Trim, KindName, SplitOnce, Parse;
    NoSlash(ref.kind);
    SplitOnceOf(KindName(ref.kind), '/', ref.name);
    ParseSplit(raw, ref);
  }

  lemma NoSlash(kind: CredentialKind)
    ensures '/' !in KindName(kind)
  {
  }

  lemma ParseSplit(raw: string, ref: Reference)
    requires SplitOnce(Trim(raw), '/') == Some((KindName(ref.kind), ref.name))
    ensures Parse(raw) == if ref.name == "" || '/' in ref.name then Err(InvalidName(raw)) else Ok(ref)
  {
    hide Trim, SplitOnce;
    match ref.kind {
      case Certificate => assert KindName(ref.kind) == "Certificate";
      case ExternalCertificate => assert KindName(ref.kind) == "ExternalCertificate" && |KindName(ref.kind)| == 19 && |"Certificate"| == 11;
    }
  }

  lemma AcceptedShape(raw: string)
    requires Parse(raw).Ok?
    ensures var ref := Parse(raw).value;
            Trim(raw) == Print(ref) && ref.name != "" && '/' !in ref.name
  {
    hide Trim;
  }

  lemma PrintEnds(ref: Reference)
    ensures Print(ref) != "" && !IsSpace(Print(ref)[0])
    ensures Print(ref)[|Print(ref)| - 1] == if ref.name == "" then '/' else ref.name[|ref.name| - 1]
  {
  }

  /** Trimming a printed reference only ever shortens its name at the end. */
  lemma TrimShortensName(ref: Reference)
    ensures exists k: nat :: k <= |ref.name| && Trim(Print(ref)) == Print(ref.(name := ref.name[..k]))
  {
    hide IsSpace, KindName;
    var text := Print(ref);
    var n := |KindName(ref.kind)| + 1;
    PrintEnds(ref);
    PrintEnds(ref.(name := ""));
    assert TrimStart(text) == text;
    var r := TrimEnd(text);
    assert text[n - 1] == '/' && !IsSpace(text[n - 1]) by { assert Print(ref.(name := ""))[n - 1] == '/'; SlashIsNoSpace(); }
    assert |r| >= n;
    assert r == Print(ref.(name := ref.name[..|r| - n]));
  }

  lemma SlashIsNoSpace()
    ensures !IsSpace('/')
  {
  }

  /** Main result: a printed reference parses back to itself exactly when its name is a good one. */
  lemma ReferenceRoundTrip(ref: Reference)
    ensures Parse(Print(ref)) == Ok(ref) <==> GoodName(ref.name)
  {
    hide IsSpace, KindName, Parse, Print, Trim;
    TrimShortensName(ref);
    var k: nat :| k <= |ref.name| && Trim(Print(ref)) == Print(ref.(name := ref.name[..k]));
    ParseTrimmed(Print(ref), ref.(name := ref.name[..k]));
    PrintEnds(ref);
    PrintEnds(ref.(name := ref.name[..k]));
    SlashIsNoSpace();
    assert ref.name[..|ref.name|] == ref.name;
    if GoodName(ref.name) {
      TrimFixed(Print(ref));
      ParseTrimmed(Print(ref), ref);
    }
  }

  /** Whatever text was accepted, its reference prints and parses back to itself. */
  lemma AcceptedReferenceIsStable(raw: string)
    requires Parse(raw).Ok?
    ensures GoodName(Parse(raw).value.name)
    ensures Parse(Print(Parse(raw).value)) == Parse(raw)
  {
    hide IsSpace, KindName, Parse, Print, Trim;
    AcceptedShape(raw);
    PrintEnds(Parse(raw).value);
    assert Trimmed(Trim(raw));
    ReferenceRoundTrip(Parse(raw).value);
  }

  /** Main result: which reference a text is, and with which error it is refused otherwise: without a slash it
      is no reference, then the name has to be there and free of slashes, then the kind has to be known. */
  lemma ReferenceCases(raw: string, kind: string, name: string)
    ensures '/' !in Trim(raw) ==> Parse(raw) == Err(NotKindSlashName(raw))
    ensures Trim(raw) == kind + "/" + name && '/' !in kind ==>
              Parse(raw) == if name == "" || '/' in name then Err(InvalidName(raw))
                            else if kind == "Certificate" then Ok(Reference(Certificate, name))
                            else if kind == "ExternalCertificate" then Ok(Reference(ExternalCertificate, name))
                            else Err(UnsupportedKind(kind))
  {
    hide Trim;
    if Trim(raw) == kind + "/" + name && '/' !in kind {
      assert "/" == ['/'];
      SplitOnceOf(kind, '/', name);
    }
  }

  /** One item is wrong: blank, or no reference. */
  predicate ItemRefused(item: string, e: ParseError) {
    if Trim(item) == "" then e == EmptyItem else Parse(item) == Err(e)
  }

  /** A list is refused with the error of its first wrong item. */
  lemma {:induction false} FirstWrongItem(items: seq<string>)
    ensures ParseItems(items).Ok? ==>
              |ParseItems(items).value| == |items|
              && forall i :: 0 <= i < |items| ==> Trim(items[i]) != "" && Parse(items[i]) == Ok(ParseItems(items).value[i])
    ensures ParseItems(items).Err? ==>
              exists i :: 0 <= i < |items| && ItemRefused(items[i], ParseItems(items).error)
                && forall j :: 0 <= j < i ==> Trim(items[j]) != "" && Parse(items[j]).Ok?
  {
    hide Trim, Parse;
    if items != [] && ParseItem(items[0]).Ok? {
      FirstWrongItem(items[1..]);
      if ParseItems(items[1..]).Err? {
        var i :| 0 <= i < |items[1..]| && ItemRefused(items[1..][i], ParseItems(items[1..]).error)
                 && forall j :: 0 <= j < i ==> Trim(items[1..][j]) != "" && Parse(items[1..][j]).Ok?;
        assert items[i + 1] == items[1..][i];
        assert forall j :: 1 <= j < i + 1 ==> items[j] == items[1..][j - 1];
      }
    }
  }

  function PrintList(refs: seq<Reference>): string
    requires refs != []
  {
    Join(PrintAll(refs), ',')
  }

  lemma {:induction false} ParsePrinted(refs: seq<Reference>)
    ensures ParseItems(PrintAll(refs)) == Ok(refs) <==> forall i :: 0 <= i < |refs| ==> GoodName(refs[i].name)
  {
    hide Parse, Print, Trim, GoodName;
    if refs != [] {
      ParsePrinted(refs[1..]);
      ReferenceRoundTrip(refs[0]);
      PrintedNotBlank(refs[0]);
      assert PrintAll(refs)[1..] == PrintAll(refs[1..]);
      assert refs == [refs[0]] + refs[1..];
    }
  }

  lemma PrintedNotBlank(ref: Reference)
    ensures Trim(Print(ref)) != ""
  {
    hide Trim;
    TrimShortensName(ref);
  }

  lemma {:induction false} ParsedLength(items: seq<string>)
    ensures ParseItems(items).Ok? ==> |ParseItems(items).value| == |items|
  {
    if items != [] {
      ParsedLength(items[1..]);
    }
  }

  lemma {:induction false} CommasInJoin(parts: seq<string>)
    requires parts != []
    ensures Count(Join(parts, ','), ',') >= |parts| - 1
    ensures Count(Join(parts, ','), ',') == |parts| - 1 ==> forall i :: 0 <= i < |parts| ==> ',' !in parts[i]
  {
    if |parts| == 1 {
      CountNone(parts[0], ',');
    } else {
      CommasInJoin(parts[1..]);
      CountAppend(parts[0] + [','], Join(parts[1..], ','), ',');
      CountAppend(parts[0], [','], ',');
      CountNone(parts[0], ',');
    }
  }

  /** Main result: a comma-joined list parses back to itself exactly when every name is good and none
      holds a comma. */
  lemma ListRoundTrip(refs: seq<Reference>)
    requires refs != []
    ensures ParseList(Some(PrintList(refs))) == Ok(refs)
            <==> forall i :: 0 <= i < |refs| ==> GoodName(refs[i].name) && ',' !in refs[i].name
  {
    var printed := PrintAll(refs);
    var text := PrintList(refs);
    assert forall i :: 0 <= i < |refs| ==> (',' in printed[i] <==> ',' in refs[i].name) by {
      assert ',' !in KindName(Certificate) && ',' !in KindName(ExternalCertificate);
    }
    ParsePrinted(refs);
    if forall i :: 0 <= i < |refs| ==> ',' !in refs[i].name {
      SplitJoin(printed, ',');
    } else {
      SplitCount(text, ',');
      CommasInJoin(printed);
      ParsedLength(Split(text, ','));
    }
  }

  // ---------------------------------------------------------------------------------------
  // Whole requests
  // ---------------------------------------------------------------------------------------

  /** The annotations that ask for what a request holds. */
  function PrintRequest(r: Request): Annotations {
    Annotations(Some(r.container),
                if r.signing.Some? then Some(Print(r.signing.value)) else None,
                if r.trustAnchors == [] then None else Some(PrintList(r.trustAnchors)),
                if r.certificateChain == [] then None else Some(PrintList(r.certificateChain)))
  }

  predicate GoodNames(refs: seq<Reference>) {
    forall i :: 0 <= i < |refs| ==> GoodName(refs[i].name) && ',' !in refs[i].name
  }

  /** Something is asked for, the container has a name without outer white space, and every reference can be printed. */
  predicate GoodRequest(r: Request) {
    && (r.signing.Some? || r.trustAnchors != [] || r.certificateChain != [])
    && r.container != "" && Trimmed(r.container)
    && (r.signing.Some? ==> GoodName(r.signing.value.name))
    && GoodNames(r.trustAnchors) && GoodNames(r.certificateChain)
  }

  lemma PrintedListReads(refs: seq<Reference>)
    ensures ParseList(if refs == [] then None else Some(PrintList(refs))) == Ok(refs) <==> GoodNames(refs)
  {
    hide Split, ParseItems, GoodName, PrintList;
    if refs != [] {
      ListRoundTrip(refs);
    }
  }

  /** Main result: a request parses back from its annotations exactly when it is a good one. */
  lemma RequestRoundTrip(r: Request)
    ensures ParseRequest(PrintRequest(r)) == Ok(Some(r)) <==> GoodRequest(r)
  {
    hide Parse, Print, PrintList, ParseList, GoodName, GoodNames, Trim, Trimmed;
    PrintedListReads(r.trustAnchors);
    PrintedListReads(r.certificateChain);
    TrimmedIsFixed(r.container);
    if r.signing.Some? {
      ReferenceRoundTrip(r.signing.value);
    }
  }

  lemma TrimmedIsFixed(s: string)
    ensures Trim(s) == s <==> Trimmed(s)
  {
    hide Trim;
    if Trimmed(s) {
      TrimFixed(s);
    }
  }

  predicate Asked(a: Annotations) {
    a.signing.Some? || a.trustAnchors.Some? || a.certificateChain.Some?
  }

  predicate ContainerNamed(a: Annotations) {
    a.container.Some? && Trim(a.container.value) != ""
  }

  predicate SigningReads(a: Annotations) {
    a.signing.Some? ==> Parse(a.signing.value).Ok?
  }

  /** Which annotations make the outcome: nothing asked for is no request; otherwise the first that is wrong, of
      container, signing, trust anchors and chain in this order, is the one whose error is returned. */
  lemma FirstErrorWins(a: Annotations)
    ensures ParseRequest(a) == Ok(None) <==> !Asked(a)
    ensures ParseRequest(a).Err? <==>
              Asked(a) && !(ContainerNamed(a) && SigningReads(a) && ParseList(a.trustAnchors).Ok? && ParseList(a.certificateChain).Ok?)
    ensures Asked(a) && !ContainerNamed(a) ==> ParseRequest(a) == Err(if a.container.None? then NoContainer else EmptyContainer)
    ensures ContainerNamed(a) && !SigningReads(a) ==> ParseRequest(a) == Err(Parse(a.signing.value).error)
    ensures Asked(a) && ContainerNamed(a) && SigningReads(a) && ParseList(a.trustAnchors).Err? ==>
              ParseRequest(a) == Err(ParseList(a.trustAnchors).error)
    ensures Asked(a) && ContainerNamed(a) && SigningReads(a) && ParseList(a.trustAnchors).Ok? && ParseList(a.certificateChain).Err? ==>
              ParseRequest(a) == Err(ParseList(a.certificateChain).error)
  {
    hide Parse, ParseList, Trim;
  }
}
