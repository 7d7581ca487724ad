/** JSON documents and the patches the operator sends: JSON Patch (RFC 6902, sections 4.1 to 4.3),
    JSON Pointer (RFC 6901) and JSON Merge Patch (RFC 7396, section 2). */
module JsonPatch {
  import opened Wrappers
  import opened Text

  datatype Json =
    | Null
    | Bool(b: bool)
    | Num(n: int)
    | Str(text: string)
    | Arr(items: seq<Json>)
    | Obj(fields: map<string, Json>)

  // ---------------------------------------------------------------------------------------
  // Array indices and pointers
  // ---------------------------------------------------------------------------------------

  predicate IsDigit(c: char) {
    '0' <= c <= '9'
  }

  /** `to_string()` of an index. */
  function Decimal(n: nat): (r: string)
    ensures r != [] && forall c :: c in r ==> IsDigit(c)
    ensures |r| > 1 ==> r[0] != '0'
    ensures n > 0 ==> r[0] != '0'
  {
    var last := '0' + (n % 10) as char;
    if n < 10 then [last] else Decimal(n / 10) + [last]
  }

  function DigitsValue(s: string): nat
    requires forall c :: c in s ==> IsDigit(c)
  {
    if s == [] then 0
    else
      assert IsDigit(s[|s| - 1]);
      10 * DigitsValue(s[..|s| - 1]) + (s[|s| - 1] as int - '0' as int)
  }

  /** Section 4 of RFC 6901: digits without a leading zero. */
  function ParseIndex(s: string): Option<nat> {
    if s != [] && (forall c :: c in s ==> IsDigit(c)) && (|s| > 1 ==> s[0] != '0') then Some(DigitsValue(s)) else None
  }

  lemma {:induction false} DecimalValue(n: nat)
    ensures DigitsValue(Decimal(n)) == n
  {
    if n >= 10 {
      DecimalValue(n / 10);
      assert Decimal(n)[..|Decimal(n)| - 1] == Decimal(n / 10);
    }
  }

  lemma IndexRoundTrip(n: nat)
    ensures ParseIndex(Decimal(n)) == Some(n)
  {
    DecimalValue(n);
  }

  lemma DecimalInjective(m: nat, n: nat)
    requires Decimal(m) == Decimal(n)
    ensures m == n
  {
    DecimalValue(m);
    DecimalValue(n);
  }

  /** Section 3 of RFC 6901: a tilde is written ~0 and a slash ~1. */
  function Escape(token: string): (r: string)
    ensures '/' !in r
  {
    if token == [] then []
    else (if token[0] == '~' then "~0" else if token[0] == '/' then "~1" else [token[0]]) + Escape(token[1..])
  }

  function Unescape(text: string): Option<string> {
    if text == [] then Some([])
    else if text[0] != '~' then
      match Unescape(text[1..])
      case None => None
      case Some(rest) => Some([text[0]] + rest)
    else if |text| == 1 || (text[1] != '0' && text[1] != '1') then None
    else
      match Unescape(text[2..])
      case None => None
      case Some(rest) => Some([if text[1] == '0' then '~' else '/'] + rest)
  }

  lemma {:induction false} EscapeRoundTrip(token: string)
    ensures Unescape(Escape(token)) == Some(token)
  {
    if token != [] {
      EscapeRoundTrip(token[1..]);
      var rest := Escape(token[1..]);
      if token[0] == '~' || token[0] == '/' {
        assert Escape(token)[2..] == rest;
      } else {
        assert Escape(token)[1..] == rest;
      }
      assert [token[0]] + token[1..] == token;
    }
  }

  /** `PointerBuf::from_tokens`. */
  function PointerText(tokens: seq<string>): string {
    if tokens == [] then [] else ['/'] + Escape(tokens[0]) + PointerText(tokens[1..])
  }

  function UnescapeAll(parts: seq<string>): Option<seq<string>> {
    if parts == [] then Some([])
    else if Unescape(parts[0]).None? || UnescapeAll(parts[1..]).None? then None
    else Some([Unescape(parts[0]).value] + UnescapeAll(parts[1..]).value)
  }

  function ParsePointer(text: string): Option<seq<string>> {
    if text == [] then Some([])
    else if text[0] != '/' then None
    else UnescapeAll(Split(text[1..], '/'))
  }

  lemma PointerStarts(tokens: seq<string>)
    requires tokens != []
    ensures PointerText(tokens) != [] && PointerText(tokens)[0] == '/'
    ensures PointerText(tokens)[1..] == Escape(tokens[0]) + PointerText(tokens[1..])
  {
    hide Escape;
    SlashOff(Escape(tokens[0]), PointerText(tokens[1..]));
  }

  lemma SlashOff(head: string, rest: string)
    ensures var text := ['/'] + head + rest; text[0] == '/' && text[1..] == head + rest
  {
  }

  /** The text of a pointer, one token off. */
  lemma PointerShape(tokens: seq<string>)
    requires tokens != []
    ensures PointerText(tokens) != [] && PointerText(tokens)[0] == '/'
    ensures |tokens| == 1 ==> PointerText(tokens)[1..] == Escape(tokens[0])
    ensures |tokens| > 1 ==> PointerText(tokens)[1..] == Escape(tokens[0]) + ['/'] + PointerText(tokens[1..])[1..]
  {
    PointerStarts(tokens);
    if |tokens| == 1 {
      assert PointerText(tokens[1..]) == [];
    } else {
      PointerStarts(tokens[1..]);
      hide Escape, PointerText;
      SlashOn(Escape(tokens[0]), PointerText(tokens[1..]));
    }
  }

  lemma SlashOn(head: string, rest: string)
    requires rest != [] && rest[0] == '/'
    ensures head + rest == head + ['/'] + rest[1..]
  {
  }

  lemma UnescapeFirst(token: string, parts: seq<string>)
    ensures UnescapeAll([Escape(token)] + parts) == if UnescapeAll(parts).Some? then Some([token] + UnescapeAll(parts).value) else None
  {
    hide Escape, Unescape;
    EscapeRoundTrip(token);
    assert ([Escape(token)] + parts)[1..] == parts;
  }

  lemma {:induction false} PointerParts(tokens: seq<string>)
    requires tokens != []
    ensures UnescapeAll(Split(PointerText(tokens)[1..], '/')) == Some(tokens)
  {
    hide Escape, Unescape, Split, PointerText, UnescapeAll;
    var head := Escape(tokens[0]);
    PointerShape(tokens);
    if |tokens| == 1 {
      SplitNone(head, '/');
      UnescapeFirst(tokens[0], []);
      NothingUnescaped();
      assert [head] + [] == [head] && [tokens[0]] + [] == tokens;
    } else {
      PointerShape(tokens[1..]);
      PointerParts(tokens[1..]);
      SplitHead(head, '/', PointerText(tokens[1..])[1..]);
      UnescapeFirst(tokens[0], Split(PointerText(tokens[1..])[1..], '/'));
      assert [tokens[0]] + tokens[1..] == tokens;
    }
  }

  lemma NothingUnescaped()
    ensures UnescapeAll([]) == Some([])
  {
  }

  /** Whatever characters the names hold, the pointer sent names the tokens meant. */
  lemma PointerRoundTrip(tokens: seq<string>)
    ensures ParsePointer(PointerText(tokens)) == Some(tokens)
  {
    if tokens != [] {
      PointerParts(tokens);
    }
  }

  // ---------------------------------------------------------------------------------------
  // JSON Patch
  // ---------------------------------------------------------------------------------------

  datatype PatchError =
    | MissingParent(token: string)
    | MissingTarget(token: string)
    | BadIndex(token: string)
    | NotAContainer(token: string)
    | NoRoot

  datatype Edit = AddValue(value: Json) | RemoveValue | ReplaceValue(value: Json)

  datatype Operation = Operation(path: seq<string>, edit: Edit)

  type Patch = seq<Operation>

  function Child(doc: Json, token: string): Option<Json> {
    match doc
    case Obj(fields) => if token in fields then Some(fields[token]) else None
    case Arr(items) =>
      var i := ParseIndex(token);
      if i.Some? && i.value < |items| then Some(items[i.value]) else None
    case _ => None
  }

  function WithChild(doc: Json, token: string, child: Json): Json
    requires Child(doc, token).Some?
  {
    match doc
    case Obj(fields) => Obj(fields[token := child])
    case Arr(items) => Arr(items[ParseIndex(token).value := child])
  }

  /** The edit of one member of an object or array. */
  function EditChild(doc: Json, token: string, edit: Edit): Result<Json, PatchError> {
    match edit
    case AddValue(v) =>
      (match doc
       case Obj(fields) => Ok(Obj(fields[token := v]))
       case Arr(items) =>
         if token == "-" then Ok(Arr(items + [v]))
         else
           var i := ParseIndex(token);
           if i.None? || i.value > |items| then Err(BadIndex(token))
           else Ok(Arr(items[..i.value] + [v] + items[i.value..]))
       case _ => Err(NotAContainer(token)))
    case RemoveValue =>
      if Child(doc, token).None? then Err(MissingTarget(token))
      else (match doc
            case Obj(fields) => Ok(Obj(fields - {token}))
            case Arr(items) => var i := ParseIndex(token).value; Ok(Arr(items[..i] + items[i + 1..])))
    case ReplaceValue(v) =>
      if Child(doc, token).None? then Err(MissingTarget(token)) else Ok(WithChild(doc, token, v))
  }

  function EditAt(doc: Json, path: seq<string>, edit: Edit): Result<Json, PatchError> {
    if path == [] then
      if edit.RemoveValue? then Err(NoRoot) else Ok(edit.value)
    else if |path| == 1 then EditChild(doc, path[0], edit)
    else
      match Child(doc, path[0])
      case None => Err(MissingParent(path[0]))
      case Some(child) =>
        match EditAt(child, path[1..], edit)
        case Err(e) => Err(e)
        case Ok(edited) => Ok(WithChild(doc, path[0], edited))
  }

  /** Operations apply in order; the first error drops the whole patch. */
  function ApplyPatch(doc: Json, patch: Patch): Result<Json, PatchError>
    decreases |patch|
  {
    if patch == [] then Ok(doc)
    else
      match EditAt(doc, patch[0].path, patch[0].edit)
      case Err(e) => Err(e)
      case Ok(next) => ApplyPatch(next, patch[1..])
  }

  lemma {:induction false} ApplyAppend(doc: Json, a: Patch, b: Patch)
    ensures ApplyPatch(doc, a + b)
            == match ApplyPatch(doc, a) { case Err(e) => Err(e) case Ok(mid) => ApplyPatch(mid, b) }
    decreases |a|
  {
    if a == [] {
      assert a + b == b;
    } else {
      assert (a + b)[1..] == a[1..] + b;
      match EditAt(doc, a[0].path, a[0].edit) {
        case Err(_) =>
        case Ok(next) => ApplyAppend(next, a[1..], b);
      }
    }
  }

  /** What a path names. */
  function At(doc: Json, path: seq<string>): Option<Json> {
    if path == [] then Some(doc)
    else
      match Child(doc, path[0])
      case None => None
      case Some(child) => At(child, path[1..])
  }

  lemma PathOfOne(fields: map<string, Json>, a: string)
    ensures At(Obj(fields), [a]) == if a in fields then Some(fields[a]) else None
  {
    assert [a][1..] == [];
  }

  lemma PathOfTwo(fields: map<string, Json>, a: string, b: string)
    ensures At(Obj(fields), [a, b]) == if a in fields then At(fields[a], [b]) else None
  {
    assert [a, b][1..] == [b];
  }

  /** `add` of an object member needs exactly an object to add to: the parent has to be there
      already, the member does not. */
  lemma {:induction false} AddNeedsParent(doc: Json, path: seq<string>, token: string, v: Json)
    ensures At(doc, path).Some? && At(doc, path).value.Obj? ==>
              EditAt(doc, path + [token], AddValue(v)).Ok?
              && At(EditAt(doc, path + [token], AddValue(v)).value, path + [token]) == Some(v)
    ensures At(doc, path).None? ==> EditAt(doc, path + [token], AddValue(v)).Err?
  {
    var full := path + [token];
    if path == [] {
      assert full[1..] == [];
    } else {
      assert full[1..] == path[1..] + [token];
      match Child(doc, path[0]) {
        case None =>
        case Some(child) =>
          AddNeedsParent(child, path[1..], token, v);
      }
    }
  }

  /** `remove` and `replace` need exactly the target. */
  lemma {:induction false} TargetMustExist(doc: Json, path: seq<string>, edit: Edit)
    requires path != [] && !edit.AddValue?
    ensures EditAt(doc, path, edit).Ok? <==> At(doc, path).Some?
  {
    if |path| > 1 && Child(doc, path[0]).Some? {
      TargetMustExist(Child(doc, path[0]).value, path[1..], edit);
    }
  }

  /** An edit of a member leaves every path alone that parts from it inside an object. */
  lemma {:induction false} EditFrame(doc: Json, path: seq<string>, a: string, rest: seq<string>, edit: Edit,
                                     b: string, other: seq<string>)
    requires At(doc, path).Some? && At(doc, path).value.Obj? && a != b
    requires EditAt(doc, path + [a] + rest, edit).Ok?
    ensures At(EditAt(doc, path + [a] + rest, edit).value, path + [b] + other) == At(doc, path + [b] + other)
  {
    var full := path + [a] + rest;
    var frame := path + [b] + other;
    if path == [] {
      assert frame[0] == b && full[0] == a;
    } else {
      assert full[1..] == path[1..] + [a] + rest;
      assert frame[1..] == path[1..] + [b] + other;
      var child := Child(doc, path[0]).value;
      EditFrame(child, path[1..], a, rest, edit, b, other);
      var edited := EditAt(child, full[1..], edit).value;
      assert EditAt(doc, full, edit).value == WithChild(doc, path[0], edited);
      assert Child(WithChild(doc, path[0], edited), path[0]) == Some(edited);
    }
  }

  // ---------------------------------------------------------------------------------------
  // JSON Merge Patch
  // ---------------------------------------------------------------------------------------

  /** A null removes the member, an object merges, anything else replaces. */
  function Merge(target: Json, patch: Json): Json
    decreases patch
  {
    match patch
    case Obj(changes) =>
      var fields := if target.Obj? then target.fields else map[];
      Obj(map k | k in fields.Keys + changes.Keys && (k in changes ==> !changes[k].Null?) ::
            if k in changes then Merge(if k in fields then fields[k] else Null, changes[k]) else fields[k])
    case _ => patch
  }
}
