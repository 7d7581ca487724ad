/** The line-scanning parsers of src/cert_controller/crypto.rs: headers of a key or certificate
    text, the last occurrence of each header winning. */
module HeaderText {
  import opened Wrappers
  import opened Conditions
  import opened Text
  import opened CertificateTypes

  datatype KeyInfo = KeyInfo(name: string, sigType: string, keyText: string)

  datatype CertInfo = CertInfo(
    name: string,
    sigType: string,
    signerKey: string,
    notBefore: Time,
    notAfter: Time,
    certText: string)

  datatype ParseError = MissingName | MissingSigType | MissingSignerKey | BadStartDate | BadEndDate

  /** What one line says about one header. */
  function HeaderOf(line: string, header: string): Option<string> {
    match SplitOnce(line, ':')
    case None => None
    case Some((key, value)) => if key == header then Some(Trim(value)) else None
  }

  /** The value of a header in a text: the one of the last line that has it. */
  function LastHeader(lines: seq<string>, header: string): Option<string> {
    if lines == [] then None
    else
      var last := HeaderOf(lines[|lines| - 1], header);
      if last.Some? then last else LastHeader(lines[..|lines| - 1], header)
  }

  function KeyOfText(text: string): Result<KeyInfo, ParseError> {
    var lines := Lines(text);
    var name, sigType := LastHeader(lines, "Name"), LastHeader(lines, "SigType");
    if name.None? then Err(MissingName)
    else if sigType.None? then Err(MissingSigType)
    else Ok(KeyInfo(name.value, sigType.value, text))
  }

  const SEPARATOR := " - "

  /** The bounds a Validity header gives; `now` are the two readings taken before parsing. */
  function ValidityBounds(validity: Option<string>, parseDate: string -> Option<Time>, now: (Time, Time))
    : Result<(Time, Time), ParseError>
  {
    if validity.None? || |SplitText(validity.value, SEPARATOR)| != 2 then Ok(now)
    else
      var parts := SplitText(validity.value, SEPARATOR);
      if parseDate(parts[0]).None? then Err(BadStartDate)
      else if parseDate(parts[1]).None? then Err(BadEndDate)
      else Ok((parseDate(parts[0]).value, parseDate(parts[1]).value))
  }

  function CertOfText(text: string, parseDate: string -> Option<Time>, now: (Time, Time)): Result<CertInfo, ParseError> {
    var lines := Lines(text);
    var bounds := ValidityBounds(LastHeader(lines, "Validity"), parseDate, now);
    var name, sigType, signerKey := LastHeader(lines, "Name"), LastHeader(lines, "SigType"), LastHeader(lines, "SignerKey");
    if bounds.Err? then Err(bounds.error)
    else if name.None? then Err(MissingName)
    else if sigType.None? then Err(MissingSigType)
    else if signerKey.None? then Err(MissingSignerKey)
    else Ok(CertInfo(name.value, sigType.value, signerKey.value, bounds.value.0, bounds.value.1, text))
  }

  /** `KeyInfo::from_key_text`. */
  method FromKeyText(text: string) returns (r: Result<KeyInfo, ParseError>)
    ensures r == KeyOfText(text)
  {
    hide Trim, Lines;
    var name: Option<string> := None;
    var sigType: Option<string> := None;
    var lines := Lines(text);
    for i := 0 to |lines|
      invariant name == LastHeader(lines[..i], "Name")
      invariant sigType == LastHeader(lines[..i], "SigType")
    {
      assert lines[..i + 1] == lines[..i] + [lines[i]];
      LastHeaderAppend(lines[..i], lines[i], "Name");
      LastHeaderAppend(lines[..i], lines[i], "SigType");
      match SplitOnce(lines[i], ':') {
        case None =>
        case Some((key, value)) =>
          if key == "Name" {
            name := Some(Trim(value));
          } else if key == "SigType" {
            sigType := Some(Trim(value));
          }
      }
    }
    assert lines[..|lines|] == lines;
    if name.None? {
      return Err(MissingName);
    }
    if sigType.None? {
      return Err(MissingSigType);
    }
    return Ok(KeyInfo(name.value, sigType.value, text));
  }

  /** `CertInfo::from_cert_text`. */
  method FromCertText(text: string, parseDate: string -> Option<Time>, now: (Time, Time)) returns (r: Result<CertInfo, ParseError>)
    ensures r == CertOfText(text, parseDate, now)
  {
    hide Trim, Lines, SplitText, SplitOnce;
    var name: Option<string> := None;
    var sigType: Option<string> := None;
    var signerKey: Option<string> := None;
    var validity := now;
    var validityText: Option<string> := None;
    var lines := Lines(text);
    for i := 0 to |lines|
      invariant name == LastHeader(lines[..i], "Name")
      invariant sigType == LastHeader(lines[..i], "SigType")
      invariant signerKey == LastHeader(lines[..i], "SignerKey")
      invariant validityText == LastHeader(lines[..i], "Validity")
    {
      assert lines[..i + 1] == lines[..i] + [lines[i]];
      LastHeaderAppend(lines[..i], lines[i], "Name");
      LastHeaderAppend(lines[..i], lines[i], "SigType");
      LastHeaderAppend(lines[..i], lines[i], "SignerKey");
      LastHeaderAppend(lines[..i], lines[i], "Validity");
      match SplitOnce(lines[i], ':') {
        case None =>
        case Some((key, value)) =>
          if key == "Name" {
            name := Some(Trim(value));
          } else if key == "SigType" {
            sigType := Some(Trim(value));
          } else if key == "SignerKey" {
            signerKey := Some(Trim(value));
          } else if key == "Validity" {
            validityText := Some(Trim(value));
          }
      }
    }
    assert lines[..|lines|] == lines;
    if validityText.Some? {
      var parts := SplitText(validityText.value, SEPARATOR);
      if |parts| == 2 {
        var start := parseDate(parts[0]);
        if start.None? {
          return Err(BadStartDate);
        }
        var end := parseDate(parts[1]);
        if end.None? {
          return Err(BadEndDate);
        }
        validity := (start.value, end.value);
      }
    }
    if name.None? {
      return Err(MissingName);
    }
    if sigType.None? {
      return Err(MissingSigType);
    }
    if signerKey.None? {
      return Err(MissingSignerKey);
    }
    return Ok(CertInfo(name.value, sigType.value, signerKey.value, validity.0, validity.1, text));
  }

  // ---------------------------------------------------------------------------------------
  // Printing headers and reading them back
  // ---------------------------------------------------------------------------------------

  datatype Header = Header(key: string, value: string)

  function HeaderLine(h: Header): string {
    h.key + [':'] + (" " + h.value)
  }

  function HeaderLines(hs: seq<Header>): (r: seq<string>)
    ensures |r| == |hs| && forall i :: 0 <= i < |r| ==> r[i] == HeaderLine(hs[i])
  {
    if hs == [] then [] else [HeaderLine(hs[0])] + HeaderLines(hs[1..])
  }

  /** Headers followed by a body, one line each. */
  function PrintText(hs: seq<Header>, body: seq<string>): string {
    Unlines(HeaderLines(hs) + body)
  }

  predicate GoodHeader(h: Header) {
    && ':' !in h.key && '\n' !in h.key
    && '\n' !in h.value && Trimmed(h.value)
  }

  predicate GoodBody(body: seq<string>) {
    forall i :: 0 <= i < |body| ==> ':' !in body[i] && '\n' !in body[i]
  }

  /** The value the last of these headers gives to `key`. */
  function LastValue(hs: seq<Header>, key: string): Option<string> {
    if hs == [] then None
    else if hs[|hs| - 1].key == key then Some(hs[|hs| - 1].value)
    else LastValue(hs[..|hs| - 1], key)
  }

  lemma TrimAfterBlank(value: string)
    requires Trimmed(value)
    ensures Trim(" " + value) == value
    ensures value != [] ==> Trim(ChopReturn(" " + value)) == value
  {
    assert (" " + value)[1..] == value;
    assert TrimStart(" " + value) == TrimStart(value);
    TrimFixed(value);
    if value != [] {
      assert (" " + value)[|value|] == value[|value| - 1];
      assert IsSpace('\r');
    }
  }

  lemma HeaderReadsBack(h: Header, key: string)
    requires GoodHeader(h)
    ensures HeaderOf(ChopReturn(HeaderLine(h)), key) == if h.key == key then Some(h.value) else None
  {
    var line := HeaderLine(h);
    assert line[|line| - 1] == if h.value == [] then ' ' else h.value[|h.value| - 1];
    assert ChopReturn(line) == line;
    SplitOnceOf(h.key, ':', " " + h.value);
    TrimAfterBlank(h.value);
  }

  lemma LastHeaderAppend(lines: seq<string>, line: string, key: string)
    ensures LastHeader(lines + [line], key) == if HeaderOf(line, key).Some? then HeaderOf(line, key) else LastHeader(lines, key)
  {
    assert (lines + [line])[..|lines|] == lines;
  }

  lemma LastValueAppend(hs: seq<Header>, h: Header, key: string)
    ensures LastValue(hs + [h], key) == if h.key == key then Some(h.value) else LastValue(hs, key)
  {
    assert (hs + [h])[..|hs|] == hs;
  }

  lemma ChopAllAppend(lines: seq<string>, line: string)
    ensures ChopAll(lines + [line]) == ChopAll(lines) + [ChopReturn(line)]
  {
  }

  lemma HeaderLinesAppend(hs: seq<Header>, h: Header)
    ensures HeaderLines(hs + [h]) == HeaderLines(hs) + [HeaderLine(h)]
  {
  }

  lemma {:induction false} LastHeaderReadsBack(hs: seq<Header>, body: seq<string>, key: string)
    requires (forall i :: 0 <= i < |hs| ==> GoodHeader(hs[i])) && GoodBody(body)
    ensures LastHeader(ChopAll(HeaderLines(hs) + body), key) == LastValue(hs, key)
    decreases |hs| + |body|
  {
    hide ChopReturn, HeaderLine, LastHeader, LastValue, ChopAll, HeaderLines, GoodHeader;
    if body != [] {
      var shorter, line := body[..|body| - 1], body[|body| - 1];
      LastHeaderReadsBack(hs, shorter, key);
      assert HeaderLines(hs) + body == (HeaderLines(hs) + shorter) + [line];
      ChopAllAppend(HeaderLines(hs) + shorter, line);
      LastHeaderAppend(ChopAll(HeaderLines(hs) + shorter), ChopReturn(line), key);
      BodyHasNoHeader(line, key);
    } else if hs != [] {
      var shorter, h := hs[..|hs| - 1], hs[|hs| - 1];
      LastHeaderReadsBack(shorter, [], key);
      assert hs == shorter + [h];
      HeaderLinesAppend(shorter, h);
      assert HeaderLines(hs) + body == (HeaderLines(shorter) + []) + [HeaderLine(h)];
      ChopAllAppend(HeaderLines(shorter) + [], HeaderLine(h));
      LastHeaderAppend(ChopAll(HeaderLines(shorter) + []), ChopReturn(HeaderLine(h)), key);
      LastValueAppend(shorter, h, key);
      HeaderReadsBack(h, key);
    } else {
      NothingReadsNothing(key);
    }
  }

  lemma NothingReadsNothing(key: string)
    ensures LastHeader(ChopAll(HeaderLines([]) + []), key) == LastValue([], key)
  {
  }

  lemma BodyHasNoHeader(line: string, key: string)
    requires ':' !in line
    ensures HeaderOf(ChopReturn(line), key).None?
  {
  }

  /** Any headers, in any order and however many, followed by any colon-free body, read back. */
  lemma PrintedHeadersReadBack(hs: seq<Header>, body: seq<string>, key: string)
    requires (forall i :: 0 <= i < |hs| ==> GoodHeader(hs[i])) && GoodBody(body)
    ensures LastHeader(Lines(PrintText(hs, body)), key) == LastValue(hs, key)
  {
    var lines := HeaderLines(hs) + body;
    forall i | 0 <= i < |lines| ensures '\n' !in lines[i] {
      if i < |hs| {
        assert lines[i] == hs[i].key + [':'] + (" " + hs[i].value);
      }
    }
    LinesUnlines(lines);
    LastHeaderReadsBack(hs, body, key);
  }

  function KeyHeaders(name: string, sigType: string): seq<Header> {
    [Header("Name", name), Header("SigType", sigType)]
  }

  /** Main result: a printed key text reads back with the same fields, whatever its body. */
  lemma KeyTextRoundTrip(name: string, sigType: string, body: seq<string>)
    requires Trimmed(name) && '\n' !in name && Trimmed(sigType) && '\n' !in sigType && GoodBody(body)
    ensures var text := PrintText(KeyHeaders(name, sigType), body);
            KeyOfText(text) == Ok(KeyInfo(name, sigType, text))
  {
    var hs := KeyHeaders(name, sigType);
    PrintedHeadersReadBack(hs, body, "Name");
    PrintedHeadersReadBack(hs, body, "SigType");
    assert hs[..1] == [hs[0]];
    assert |"Name"| != |"SigType"|;
  }

  function CertHeaders(name: string, sigType: string, signerKey: string, start: string, end: string): seq<Header> {
    [Header("Name", name), Header("SigType", sigType), Header("SignerKey", signerKey), Header("Validity", start + SEPARATOR + end)]
  }

  lemma CertHeadersRead(name: string, sigType: string, signerKey: string, validity: string)
    ensures var hs := [Header("Name", name), Header("SigType", sigType), Header("SignerKey", signerKey), Header("Validity", validity)];
            && LastValue(hs, "Name") == Some(name)
            && LastValue(hs, "SigType") == Some(sigType)
            && LastValue(hs, "SignerKey") == Some(signerKey)
            && LastValue(hs, "Validity") == Some(validity)
  {
    var h1, h2, h3, h4 := Header("Name", name), Header("SigType", sigType), Header("SignerKey", signerKey), Header("Validity", validity);
    assert |"Name"| == 4 && |"SigType"| == 7 && |"SignerKey"| == 9 && |"Validity"| == 8;
    LastOfFour(h1, h2, h3, h4, "Name");
    LastOfFour(h1, h2, h3, h4, "SigType");
    LastOfFour(h1, h2, h3, h4, "SignerKey");
    LastOfFour(h1, h2, h3, h4, "Validity");
  }

  lemma LastOfFour(h1: Header, h2: Header, h3: Header, h4: Header, key: string)
    ensures LastValue([h1, h2, h3, h4], key) ==
            if h4.key == key then Some(h4.value)
            else if h3.key == key then Some(h3.value)
            else if h2.key == key then Some(h2.value)
            else if h1.key == key then Some(h1.value)
            else None
  {
    LastValueAppend([h1, h2, h3], h4, key);
    LastValueAppend([h1, h2], h3, key);
    LastValueAppend([h1], h2, key);
    assert [h1, h2, h3] + [h4] == [h1, h2, h3, h4] && [h1, h2] + [h3] == [h1, h2, h3] && [h1] + [h2] == [h1, h2];
  }

  lemma CertHeadersGood(name: string, sigType: string, signerKey: string, start: string, end: string)
    requires Trimmed(name) && '\n' !in name && Trimmed(sigType) && '\n' !in sigType && Trimmed(signerKey) && '\n' !in signerKey
    requires Trimmed(start + SEPARATOR + end) && '\n' !in start && '\n' !in end
    ensures var hs := CertHeaders(name, sigType, signerKey, start, end); forall i :: 0 <= i < |hs| ==> GoodHeader(hs[i])
  {
    assert '\n' !in SEPARATOR;
  }

  /** Main result: a printed certificate text reads back with the same fields and bounds. */
  lemma CertTextRoundTrip(name: string, sigType: string, signerKey: string, start: string, end: string, body: seq<string>,
                          parseDate: string -> Option<Time>, now: (Time, Time))
    requires Trimmed(name) && '\n' !in name && Trimmed(sigType) && '\n' !in sigType
    requires Trimmed(signerKey) && '\n' !in signerKey && GoodBody(body)
    requires Trimmed(start + SEPARATOR + end) && '\n' !in start && '\n' !in end
    requires FirstSeparatorAfter(start, SEPARATOR) && SplitText(end, SEPARATOR) == [end]
    requires parseDate(start).Some? && parseDate(end).Some?
    ensures var text := PrintText(CertHeaders(name, sigType, signerKey, start, end), body);
            CertOfText(text, parseDate, now)
            == Ok(CertInfo(name, sigType, signerKey, parseDate(start).value, parseDate(end).value, text))
  {
    hide LastHeader, LastValue, Lines, PrintText, SplitText, FirstSeparatorAfter, Trimmed;
    var hs := CertHeaders(name, sigType, signerKey, start, end);
    CertHeadersGood(name, sigType, signerKey, start, end);
    PrintedHeadersReadBack(hs, body, "Name");
    PrintedHeadersReadBack(hs, body, "SigType");
    PrintedHeadersReadBack(hs, body, "SignerKey");
    PrintedHeadersReadBack(hs, body, "Validity");
    CertHeadersRead(name, sigType, signerKey, start + SEPARATOR + end);
    SplitTextHead(start, SEPARATOR, end);
  }

  /** Main result: a text whose Validity header is missing, or does not split into exactly two parts,
      gets the parse time for both bounds, so the external controller, which compares with a later
      reading, never marks such a certificate valid. */
  lemma UnsplitValidityIsNeverValid(text: string, parseDate: string -> Option<Time>, now: (Time, Time),
                                    spec: ExternalSpec, st: ExternalStatus, key: Option<Key>, subject: Key, signer: Key, later: Time)
    requires CertOfText(text, parseDate, now).Ok?
    requires var validity := LastHeader(Lines(text), "Validity");
             validity.None? || |SplitText(validity.value, SEPARATOR)| != 2
    requires now.0 <= now.1 <= later
    ensures var info := CertOfText(text, parseDate, now).value;
            && (info.notBefore, info.notAfter) == now
            && var published := Observed(spec, st, Secret(key, Some(Cert(subject, signer, info.notBefore, info.notAfter)), None), later);
               published.certExists && !published.cert.valid && Flag(published.conditions, TypeReady) == Some(false)
  {
    hide PutBool, LastHeader, Lines, SplitText;
  }

  // ---------------------------------------------------------------------------------------
  // What is refused
  // ---------------------------------------------------------------------------------------

  /** What a line says: up to the first colon the header, spelled exactly so, and behind it the value, trimmed. */
  lemma LineReads(key: string, value: string, header: string)
    requires ':' !in key
    ensures HeaderOf(key + ":" + value, header) == if key == header then Some(Trim(value)) else None
    ensures HeaderOf(key, header).None?
  {
    hide Trim;
    assert ":" == [':'];
    SplitOnceOf(key, ':', value);
  }

  /** No line of the text has the header. */
  predicate Lacks(text: string, header: string) {
    forall i :: 0 <= i < |Lines(text)| ==> HeaderOf(Lines(text)[i], header).None?
  }

  /** Line `i` gives the header this value and no later line gives it any. */
  predicate SaysAt(lines: seq<string>, i: nat, header: string, value: string) {
    && i < |lines| && HeaderOf(lines[i], header) == Some(value)
    && forall j :: i < j < |lines| ==> HeaderOf(lines[j], header).None?
  }

  ghost predicate Says(text: string, header: string, value: string) {
    exists i: nat :: SaysAt(Lines(text), i, header, value)
  }

  lemma {:induction false} LastHeaderIs(lines: seq<string>, header: string)
    ensures LastHeader(lines, header).None? <==> forall i :: 0 <= i < |lines| ==> HeaderOf(lines[i], header).None?
    ensures LastHeader(lines, header).Some? ==> exists i: nat :: SaysAt(lines, i, header, LastHeader(lines, header).value)
  {
    hide HeaderOf;
    if lines != [] {
      var front := lines[..|lines| - 1];
      LastHeaderIs(front, header);
      if HeaderOf(lines[|lines| - 1], header).Some? {
        assert SaysAt(lines, |lines| - 1, header, HeaderOf(lines[|lines| - 1], header).value);
      } else if LastHeader(front, header).Some? {
        var i: nat :| SaysAt(front, i, header, LastHeader(front, header).value);
        assert SaysAt(lines, i, header, LastHeader(front, header).value);
      }
    }
  }

  lemma SaysOnce(text: string, header: string, v: string, w: string)
    requires Says(text, header, v) && Says(text, header, w)
    ensures v == w && !Lacks(text, header)
  {
    hide Lines, HeaderOf;
    var i: nat :| SaysAt(Lines(text), i, header, v);
    var j: nat :| SaysAt(Lines(text), j, header, w);
  }

  lemma HeaderSays(text: string, header: string)
    ensures LastHeader(Lines(text), header).None? <==> Lacks(text, header)
    ensures LastHeader(Lines(text), header).Some? ==> Says(text, header, LastHeader(Lines(text), header).value)
    ensures forall v :: Says(text, header, v) <==> LastHeader(Lines(text), header) == Some(v)
  {
    hide Lines, HeaderOf, LastHeader;
    LastHeaderIs(Lines(text), header);
    forall v | Says(text, header, v) ensures LastHeader(Lines(text), header) == Some(v) {
      var i: nat :| SaysAt(Lines(text), i, header, v);
      SaysOnce(text, header, v, LastHeader(Lines(text), header).value);
    }
  }

  /** Main result: a key text is refused if and only if it lacks a header, the name first; otherwise the last
      line of each header gives the field. */
  lemma KeyTextCases(text: string)
    ensures var r := KeyOfText(text);
            && (r == Err(MissingName) <==> Lacks(text, "Name"))
            && (r == Err(MissingSigType) <==> !Lacks(text, "Name") && Lacks(text, "SigType"))
            && (r.Ok? <==> !Lacks(text, "Name") && !Lacks(text, "SigType"))
            && (r.Ok? ==> Says(text, "Name", r.value.name) && Says(text, "SigType", r.value.sigType) && r.value.keyText == text)
  {
    hide Lines, LastHeader, Lacks, Says;
    HeaderSays(text, "Name");
    HeaderSays(text, "SigType");
  }

  /** The text gives a period in two parts, and the first, or the second, is no date. */
  ghost predicate BadPeriod(text: string, parseDate: string -> Option<Time>, first: bool) {
    exists v :: Says(text, "Validity", v) && |SplitText(v, SEPARATOR)| == 2
                && (first <==> parseDate(SplitText(v, SEPARATOR)[0]).None?)
                && (!first ==> parseDate(SplitText(v, SEPARATOR)[1]).None?)
  }

  /** And both are. */
  ghost predicate Period(text: string, parseDate: string -> Option<Time>, start: Time, end: Time) {
    exists v :: Says(text, "Validity", v) && |SplitText(v, SEPARATOR)| == 2
                && parseDate(SplitText(v, SEPARATOR)[0]) == Some(start) && parseDate(SplitText(v, SEPARATOR)[1]) == Some(end)
  }

  /** The text gives no period in two parts. */
  ghost predicate NoPeriod(text: string) {
    forall v :: Says(text, "Validity", v) ==> |SplitText(v, SEPARATOR)| != 2
  }

  /** Main result: when a certificate text is refused and with which error: a period that does not parse comes
      before a missing header, and of those the first in the order name, signature type, signer key. Otherwise the
      bounds are the period's, or the time of parsing when the text gives none in two parts. */
  lemma CertTextCases(text: string, parseDate: string -> Option<Time>, now: (Time, Time))
    ensures var r := CertOfText(text, parseDate, now);
            var dated := !BadPeriod(text, parseDate, true) && !BadPeriod(text, parseDate, false);
            && (r == Err(BadStartDate) <==> BadPeriod(text, parseDate, true))
            && (r == Err(BadEndDate) <==> BadPeriod(text, parseDate, false))
            && (r == Err(MissingName) <==> dated && Lacks(text, "Name"))
            && (r == Err(MissingSigType) <==> dated && !Lacks(text, "Name") && Lacks(text, "SigType"))
            && (r == Err(MissingSignerKey) <==>
                  dated && !Lacks(text, "Name") && !Lacks(text, "SigType") && Lacks(text, "SignerKey"))
    ensures var r := CertOfText(text, parseDate, now);
            r.Ok? ==>
              && Says(text, "Name", r.value.name) && Says(text, "SigType", r.value.sigType)
              && Says(text, "SignerKey", r.value.signerKey) && r.value.certText == text
              && (if NoPeriod(text) then (r.value.notBefore, r.value.notAfter) == now
                  else Period(text, parseDate, r.value.notBefore, r.value.notAfter))
  {
    hide Lines, LastHeader, Lacks, Says, SplitText;
    HeaderSays(text, "Name");
    HeaderSays(text, "SigType");
    HeaderSays(text, "SignerKey");
    HeaderSays(text, "Validity");
  }
}
