/** The character tab: an editing form of eight text fields for the loaded card,
    with load, clear and apply operations, the modification check, and the
    comma-separated tag list. The form's text fields are the record `Form`; the rest
    of the page is not modelled. */
module CharacterTab {
  import opened JsValue
  import opened Conversation
  import opened CharacterCard

  /** The values of the eight text fields, in the order the form shows them. */
  datatype Form = Form(
    name: string, personality: string, description: string, firstMessage: string,
    scenario: string, systemPrompt: string, creator: string, tags: string)

  const EMPTY_FORM := Form("", "", "", "", "", "", "", "")

  // ---------------------------------------------------------------------------
  // Tags: split, trim, drop empties; join with ", "
  // ---------------------------------------------------------------------------

  /** The code points `String.prototype.trim` removes: white space and line
      terminators. */
  predicate IsJsWhitespace(c: char) {
    var x := c as int;
    || (0x09 <= x <= 0x0D) || x == 0x20 || x == 0xA0 || x == 0x1680
    || (0x2000 <= x <= 0x200A) || x == 0x2028 || x == 0x2029 || x == 0x202F
    || x == 0x205F || x == 0x3000 || x == 0xFEFF
  }

  /** `s.trimStart()`: a suffix of `s` that does not begin with white space, and
      only white space is cut off in front of it. */
  function TrimStart(s: string): (r: string)
    ensures |r| <= |s| && forall i :: 0 <= i < |r| ==> r[i] == s[|s| - |r| + i]
    ensures r == [] || !IsJsWhitespace(r[0])
    ensures forall i :: 0 <= i < |s| - |r| ==> IsJsWhitespace(s[i])
    decreases |s|
  {
    if s != [] && IsJsWhitespace(s[0]) then
      var rest := s[1..];
      var r := TrimStart(rest);
      assert forall i :: 0 <= i < |r| ==> r[i] == rest[|rest| - |r| + i];
      assert forall i {:trigger s[i]} :: 1 <= i < |s| ==> s[i] == rest[i - 1];
      r
    else s
  }

  /** `s.trimEnd()`: a prefix of `s` that does not end with white space, and only
      white space is cut off behind it. */
  function TrimEnd(s: string): (r: string)
    ensures |r| <= |s| && forall i :: 0 <= i < |r| ==> r[i] == s[i]
    ensures r == [] || !IsJsWhitespace(r[|r| - 1])
    ensures forall i :: |r| <= i < |s| ==> IsJsWhitespace(s[i])
    decreases |s|
  {
    if s != [] && IsJsWhitespace(s[|s| - 1]) then TrimEnd(s[..|s| - 1]) else s
  }

  /** No white space at either end. */
  predicate Trimmed(s: string) {
    s == [] || (!IsJsWhitespace(s[0]) && !IsJsWhitespace(s[|s| - 1]))
  }

  /** `s.trim()`: the text between the leading and the trailing white space. */
  function Trim(s: string): string {
    TrimEnd(TrimStart(s))
  }

  /** What trim leaves has no white space at either end. */
  lemma TrimIsTrimmed(s: string)
    ensures Trimmed(Trim(s))
  {
    var t := TrimStart(s);
    var r := TrimEnd(t);
    if r != [] {
      assert r[0] == t[0];
      assert !IsJsWhitespace(t[0]);
      assert !IsJsWhitespace(r[|r| - 1]);
    }
  }

  /** Trimming takes a piece of the text, so it adds no character. */
  lemma TrimKeepsOut(s: string, c: char)
    requires c !in s
    ensures c !in Trim(s)
  {
    var t := TrimStart(s);
    var r := TrimEnd(t);
    forall j | 0 <= j < |r|
      ensures r[j] != c
    {
      assert r[j] == t[j] == s[|s| - |t| + j];
    }
  }

  /** Text without white space at its ends is left alone by trim, even behind one
      leading space. */
  lemma TrimTrimmed(s: string)
    requires Trimmed(s)
    ensures Trim(s) == s
    ensures Trim(" " + s) == s
  {
    assert TrimStart(s) == s;
    assert TrimEnd(s) == s;
    assert (" " + s)[1..] == s;
    assert TrimStart(" " + s) == TrimStart(s);
  }

  /** `s.split(sep)` for a one-character separator: at least one piece. */
  function Split(s: string, sep: char): (r: seq<string>)
    ensures |r| >= 1
    decreases |s|
  {
    var i := IndexOf(s, sep);
    if i == -1 then [s] else [s[..i]] + Split(s[i + 1..], sep)
  }

  /** No piece of a split holds the separator. */
  lemma {:induction false} SplitPiecesFree(s: string, sep: char)
    ensures forall i :: 0 <= i < |Split(s, sep)| ==> sep !in Split(s, sep)[i]
    decreases |s|
  {
    var i := IndexOf(s, sep);
    if i != -1 {
      SplitPiecesFree(s[i + 1..], sep);
    }
  }

  /** The pieces joined with the separator give the text back. */
  lemma {:induction false} JoinSplit(s: string, sep: char)
    ensures Join(Split(s, sep), [sep]) == s
    decreases |s|
  {
    var i := IndexOf(s, sep);
    if i != -1 {
      var rest := s[i + 1..];
      assert Split(s, sep) == [s[..i]] + Split(rest, sep);
      JoinSplit(rest, sep);
      JoinCons(s[..i], Split(rest, sep), [sep]);
      assert Join(Split(s, sep), [sep]) == s[..i] + [sep] + rest;
      assert s == s[..i] + [sep] + rest;
    }
  }

  lemma JoinCons(x: string, xs: seq<string>, sep: string)
    requires |xs| >= 1
    ensures Join([x] + xs, sep) == x + sep + Join(xs, sep)
  {
    assert ([x] + xs)[1..] == xs;
  }

  /** `.map(tag => tag.trim()).filter(tag => tag)`. */
  function CleanTags(parts: seq<string>): seq<string>
    decreases |parts|
  {
    if parts == [] then []
    else
      var t := Trim(parts[0]);
      (if t == "" then [] else [t]) + CleanTags(parts[1..])
  }

  /** A tag the parser can give back unchanged: not empty, trimmed, free of commas. */
  predicate CanonicalTag(t: string) {
    t != "" && Trimmed(t) && ',' !in t
  }

  /** Trimming comma-free pieces and dropping the empty ones leaves canonical tags. */
  lemma {:induction false} CleanTagsCanonical(parts: seq<string>)
    requires forall i :: 0 <= i < |parts| ==> ',' !in parts[i]
    ensures forall i :: 0 <= i < |CleanTags(parts)| ==> CanonicalTag(CleanTags(parts)[i])
    decreases |parts|
  {
    if parts != [] {
      TrimIsTrimmed(parts[0]);
      TrimKeepsOut(parts[0], ',');
      CleanTagsCanonical(parts[1..]);
    }
  }

  /** The tag list applyCharacterChanges reads from the tags field. */
  function ParseTags(field: string): seq<string> {
    CleanTags(Split(field, ','))
  }

  /** Every parsed tag is canonical: not empty, trimmed and free of commas. */
  lemma ParseTagsCanonical(field: string)
    ensures forall i :: 0 <= i < |ParseTags(field)| ==> CanonicalTag(ParseTags(field)[i])
  {
    SplitPiecesFree(field, ',');
    CleanTagsCanonical(Split(field, ','));
  }

  /** `tags.join(', ')`. */
  function JoinTags(tags: seq<string>): string {
    Join(tags, ", ")
  }

  /** Each text behind a single space, as the tags after the first appear between
      the commas of a joined list. */
  function SpacePrefixed(ts: seq<string>): (r: seq<string>)
    ensures |r| == |ts|
  {
    if ts == [] then [] else [" " + ts[0]] + SpacePrefixed(ts[1..])
  }

  /** Splitting text that has a first separator after a separator-free head. */
  lemma SplitAfter(head: string, sep: char, rest: string)
    requires sep !in head
    ensures Split(head + [sep] + rest, sep) == [head] + Split(rest, sep)
  {
    var s := head + [sep] + rest;
    assert s[|head|] == sep;
    assert s[..|head|] == head;
    assert IndexOf(s, sep) == |head|;
    assert s[|head| + 1..] == rest;
  }

  /** A joined list of two or more tags is its first tag, a comma and the rest
      behind a space. */
  lemma JoinTagsCons(p: string, tags: seq<string>)
    requires |tags| >= 2
    ensures p + JoinTags(tags) == (p + tags[0]) + [','] + (" " + JoinTags(tags[1..]))
  {
    assert JoinTags(tags) == tags[0] + ", " + JoinTags(tags[1..]);
  }

  /** Splitting a joined list at the commas gives the first tag (after whatever
      comma-free text came before it) and each further tag behind its space. */
  lemma {:induction false} SplitJoined(p: string, tags: seq<string>)
    requires ',' !in p && |tags| >= 1
    requires forall i :: 0 <= i < |tags| ==> ',' !in tags[i]
    ensures Split(p + JoinTags(tags), ',') == [p + tags[0]] + SpacePrefixed(tags[1..])
    decreases |tags|
  {
    if |tags| == 1 {
      assert p + JoinTags(tags) == p + tags[0];
      assert ',' !in p + tags[0];
    } else {
      var head := p + tags[0];
      var rest := JoinTags(tags[1..]);
      assert ',' !in head by {
        assert ',' !in tags[0];
      }
      JoinTagsCons(p, tags);
      SplitAfter(head, ',', " " + rest);
      SplitJoined(" ", tags[1..]);
    }
  }

  /** A first piece that trims to the first tag is kept, trimmed, in front of what
      the remaining pieces give. */
  lemma CleanTagsKeep(parts: seq<string>, tags: seq<string>)
    requires parts != [] && tags != [] && tags[0] != "" && Trim(parts[0]) == tags[0]
    requires CleanTags(parts[1..]) == tags[1..]
    ensures CleanTags(parts) == tags
  {
    assert CleanTags(parts) == [tags[0]] + CleanTags(parts[1..]);
  }

  lemma SpacePrefixedCons(tags: seq<string>)
    requires tags != []
    ensures SpacePrefixed(tags)[0] == " " + tags[0]
    ensures SpacePrefixed(tags)[1..] == SpacePrefixed(tags[1..])
  {
  }

  /** Trimming and filtering the space-prefixed canonical tags gives them back. */
  lemma {:induction false} CleanSpacePrefixed(tags: seq<string>)
    requires forall i :: 0 <= i < |tags| ==> CanonicalTag(tags[i])
    ensures CleanTags(SpacePrefixed(tags)) == tags
    decreases |tags|
  {
    if tags != [] {
      CleanSpacePrefixed(tags[1..]);
      SpacePrefixedCons(tags);
      TrimTrimmed(tags[0]);
      CleanTagsKeep(SpacePrefixed(tags), tags);
    }
  }

  /** A joined non-empty list splits into its first tag and the others behind their
      spaces. */
  lemma SplitJoinTags(tags: seq<string>)
    requires tags != []
    requires forall i :: 0 <= i < |tags| ==> ',' !in tags[i]
    ensures Split(JoinTags(tags), ',') == [tags[0]] + SpacePrefixed(tags[1..])
  {
    SplitJoined("", tags);
    assert "" + JoinTags(tags) == JoinTags(tags);
    assert "" + tags[0] == tags[0];
  }

  /** Cleaning those pieces gives the canonical tags back. */
  lemma CleanSplitJoined(tags: seq<string>)
    requires tags != []
    requires forall i :: 0 <= i < |tags| ==> CanonicalTag(tags[i])
    ensures CleanTags([tags[0]] + SpacePrefixed(tags[1..])) == tags
  {
    var parts := [tags[0]] + SpacePrefixed(tags[1..]);
    assert parts[0] == tags[0] && parts[1..] == SpacePrefixed(tags[1..]);
    TrimTrimmed(tags[0]);
    CleanSpacePrefixed(tags[1..]);
    CleanTagsKeep(parts, tags);
  }

  /** Round trip: joining tags that are non-empty, trimmed and comma-free and
      parsing the result gives the tags back. */
  lemma ParseJoinTags(tags: seq<string>)
    requires forall i :: 0 <= i < |tags| ==> CanonicalTag(tags[i])
    ensures ParseTags(JoinTags(tags)) == tags
  {
    if tags == [] {
      assert Split("", ',') == [""];
      assert Trim("") == "";
    } else {
      SplitJoinTags(tags);
      CleanSplitJoined(tags);
    }
  }

  /** Parsing is idempotent: the parsed tags are canonical, so joining and parsing
      them again changes nothing. */
  lemma ParseTagsIdempotent(field: string)
    ensures ParseTags(JoinTags(ParseTags(field))) == ParseTags(field)
  {
    ParseTagsCanonical(field);
    ParseJoinTags(ParseTags(field));
  }

  // ---------------------------------------------------------------------------
  // What the form shows for a card, and what apply stores
  // ---------------------------------------------------------------------------

  /** `v || ''`. */
  function OrEmpty(v: Json): Json {
    Or(v, JString(""))
  }

  /** The tags as loaded into the form and as hasModifications recomputes them: an
      array joined with ", ", anything else `|| ''`. */
  function CardTags(data: Json): (r: Json)
    ensures r.JString? || (Truthy(r) && r == Get(data, "tags"))
    ensures !Truthy(Get(data, "tags")) ==> r == JString("")
  {
    var t := Get(data, "tags");
    if t.JArray? then JString(JoinTags(ElementStrings(t.elems))) else OrEmpty(t)
  }

  /** The eight values updateFromCharacterCard writes into the form for the
      (unwrapped) card; a text field shows the string conversion of its value. */
  function LoadedForm(data: Json): Form {
    Form(
      ToJsString(OrEmpty(Get(data, "name"))),
      ToJsString(OrEmpty(Get(data, "personality"))),
      ToJsString(OrEmpty(Get(data, "description"))),
      ToJsString(OrEmpty(Get(data, "first_mes"))),
      ToJsString(OrEmpty(Get(data, "scenario"))),
      ToJsString(OrEmpty(CardPrompt(data))),
      ToJsString(OrEmpty(Get(data, "creator"))),
      ToJsString(CardTags(data)))
  }

  function StringArray(ts: seq<string>): (r: seq<Json>)
    ensures |r| == |ts|
  {
    seq(|ts|, i requires 0 <= i < |ts| => JString(ts[i]))
  }

  /** The object applyCharacterChanges builds from the form: seven strings and the
      tag list `tags`. */
  function CardRecord(form: Form, tags: seq<string>): Json {
    JObject(map[
      "name" := JString(form.name),
      "personality" := JString(form.personality),
      "description" := JString(form.description),
      "first_mes" := JString(form.firstMessage),
      "scenario" := JString(form.scenario),
      "system_prompt" := JString(form.systemPrompt),
      "creator" := JString(form.creator),
      "tags" := JArray(StringArray(tags))])
  }

  /** The record stored by applyCharacterChanges, with the tags parsed from the
      tags field. */
  function FormRecord(form: Form): (r: Json)
    ensures !IsV2Envelope(r) && Unwrap(r) == r
    ensures CardTags(r) == JString(JoinTags(ParseTags(form.tags)))
  {
    var tags := ParseTags(form.tags);
    StringArrayShown(tags);
    CardRecord(form, tags)
  }

  /** Each property of the record holds the field it was read from; it has no
      `spec`, so it is never taken for a v2 envelope. */
  lemma CardRecordFields(form: Form, tags: seq<string>)
    ensures var r := CardRecord(form, tags);
      && Get(r, "name") == JString(form.name)
      && Get(r, "personality") == JString(form.personality)
      && Get(r, "description") == JString(form.description)
      && Get(r, "first_mes") == JString(form.firstMessage)
      && Get(r, "scenario") == JString(form.scenario)
      && Get(r, "system_prompt") == JString(form.systemPrompt)
      && Get(r, "creator") == JString(form.creator)
      && Get(r, "tags") == JArray(StringArray(tags))
      && Get(r, "spec") == JUndefined
  {
  }

  // ---------------------------------------------------------------------------
  // hasModifications
  // ---------------------------------------------------------------------------

  /** Some field differs, under `!==`, from the value the card `data` gives it. */
  predicate Differs(form: Form, data: Json) {
    || JString(form.name) != OrEmpty(Get(data, "name"))
    || JString(form.personality) != OrEmpty(Get(data, "personality"))
    || JString(form.description) != OrEmpty(Get(data, "description"))
    || JString(form.firstMessage) != OrEmpty(Get(data, "first_mes"))
    || JString(form.scenario) != OrEmpty(Get(data, "scenario"))
    || JString(form.systemPrompt) != OrEmpty(CardPrompt(data))
    || JString(form.creator) != OrEmpty(Get(data, "creator"))
    || JString(form.tags) != CardTags(data)
  }

  /** hasModifications as written: it compares the form against the stored card
      itself, not against the card its fields were loaded from. */
  predicate ModifiedAsWritten(form: Form, current: Json) {
    Truthy(current) && Differs(form, current)
  }

  /** hasModifications as evidently intended: the stored card is unwrapped the same
      way updateFromCharacterCard unwraps it before filling the form. */
  predicate Modified(form: Form, current: Json) {
    Truthy(current) && Differs(form, Unwrap(current))
  }

  /** A value whose form text compares equal to it: falsy, or a string. */
  predicate TextLike(v: Json) {
    !Truthy(v) || v.JString?
  }

  /** Every field the form reads from `data` is text-like (tags may also be an array). */
  predicate TextFields(data: Json) {
    && TextLike(Get(data, "name")) && TextLike(Get(data, "personality"))
    && TextLike(Get(data, "description")) && TextLike(Get(data, "first_mes"))
    && TextLike(Get(data, "scenario")) && TextLike(Get(data, "system_prompt"))
    && TextLike(Get(data, "creator"))
    && (TextLike(Get(data, "tags")) || Get(data, "tags").JArray?)
  }

  lemma TextLikeShown(v: Json)
    requires TextLike(v)
    ensures JString(ToJsString(OrEmpty(v))) == OrEmpty(v)
  {
  }

  /** Right after loading a card whose fields are text, the corrected check finds no
      modification, whether or not the card is a v2 envelope. */
  lemma LoadedFormUnmodified(card: Json)
    requires Truthy(card) && TextFields(Unwrap(card))
    ensures !Modified(LoadedForm(Unwrap(card)), card)
  {
    var d := Unwrap(card);
    TextLikeShown(Get(d, "name"));
    TextLikeShown(Get(d, "personality"));
    TextLikeShown(Get(d, "description"));
    TextLikeShown(Get(d, "first_mes"));
    TextLikeShown(Get(d, "scenario"));
    TextLikeShown(Get(d, "creator"));
    TextLikeShown(CardPrompt(d));
    if !Get(d, "tags").JArray? {
      TextLikeShown(Get(d, "tags"));
    }
  }

  /** Against a stored value that is not a v2 envelope, the check as written and
      the corrected one agree. */
  lemma AsWrittenAgreesWithoutEnvelope(form: Form, current: Json)
    requires !IsV2Envelope(current)
    ensures ModifiedAsWritten(form, current) == Modified(form, current)
  {
    assert Unwrap(current) == current;
  }

  /** For a card that is not a v2 envelope the check as written agrees with the
      corrected one, so a freshly loaded card with text fields is unmodified. */
  lemma AsWrittenUnmodifiedWithoutEnvelope(card: Json)
    requires Truthy(card) && !IsV2Envelope(card) && TextFields(card)
    ensures ModifiedAsWritten(form := LoadedForm(card), current := card) == Modified(LoadedForm(card), card)
    ensures !ModifiedAsWritten(LoadedForm(card), card)
  {
    AsWrittenAgreesWithoutEnvelope(LoadedForm(card), card);
    LoadedFormUnmodified(card);
  }

  /** The check as written reports any freshly loaded v2 envelope whose inner card
      has a non-empty name while the envelope itself has none: the form shows the
      inner name and the check compares it with the envelope's empty one. */
  lemma EnvelopeReportedModified(card: Json)
    requires IsV2Envelope(card) && !Truthy(Get(card, "name"))
    requires Get(Get(card, "data"), "name").JString? && Get(Get(card, "data"), "name").s != ""
    ensures ModifiedAsWritten(LoadedForm(Unwrap(card)), card)
  {
    var n := Get(Get(card, "data"), "name");
    assert Unwrap(card) == Get(card, "data");
    assert LoadedForm(Unwrap(card)).name == n.s;
    assert OrEmpty(Get(card, "name")) == JString("");
  }

  /** The discrepancy: a v2 card with only an inner name "Ann", loaded and left
      untouched, is reported as modified by the check as written, since the stored
      envelope has no top-level name; the corrected check reports no modification. */
  lemma V2CardReportedModified()
    ensures var card := JObject(map["spec" := JString("chara_card_v2"),
                                    "data" := JObject(map["name" := JString("Ann")])]);
      && ModifiedAsWritten(LoadedForm(Unwrap(card)), card)
      && !Modified(LoadedForm(Unwrap(card)), card)
  {
    var card := JObject(map["spec" := JString("chara_card_v2"),
                            "data" := JObject(map["name" := JString("Ann")])]);
    var inner := JObject(map["name" := JString("Ann")]);
    assert Get(card, "spec") == JString("chara_card_v2") && Get(card, "data") == inner;
    assert Get(card, "name") == JUndefined;
    assert Get(inner, "name") == JString("Ann");
    EnvelopeReportedModified(card);
    LoadedFormUnmodified(card);
  }

  lemma StringArrayShown(ts: seq<string>)
    ensures ElementStrings(StringArray(ts)) == ts
  {
  }

  /** Compared against a record built from it with the tag list `tags`, the form
      differs exactly in the tags field or in a prompt left empty beside a
      description. */
  lemma RecordModifiedIff(form: Form, tags: seq<string>)
    ensures Modified(form, CardRecord(form, tags)) <==>
      JoinTags(tags) != form.tags || (form.systemPrompt == "" && form.description != "")
  {
    var r := CardRecord(form, tags);
    CardRecordFields(form, tags);
    assert !IsV2Envelope(r);
    assert Unwrap(r) == r;
    StringArrayShown(tags);
    assert CardTags(r) == JString(JoinTags(tags));
    assert Differs(form, r) <==>
      JString(form.systemPrompt) != OrEmpty(CardPrompt(r)) || JString(form.tags) != CardTags(r);
  }

  /** Right after applying the form, the check reports a modification exactly when
      the tag field is not in the canonical ", "-joined form, or the prompt is empty
      while the description is not (the stored prompt then falls back to the
      description). */
  lemma AppliedFormModifiedIff(form: Form)
    ensures Modified(form, FormRecord(form)) <==>
      JoinTags(ParseTags(form.tags)) != form.tags ||
      (form.systemPrompt == "" && form.description != "")
    ensures ModifiedAsWritten(form, FormRecord(form)) == Modified(form, FormRecord(form))
  {
    RecordModifiedIff(form, ParseTags(form.tags));
    CardRecordFields(form, ParseTags(form.tags));
    AsWrittenAgreesWithoutEnvelope(form, FormRecord(form));
  }

  // ---------------------------------------------------------------------------
  // The handler
  // ---------------------------------------------------------------------------

  class CharacterTabHandler {
    var form: Form
    /** The card shown in the form, or null. */
    var currentCharacterData: Json
    /** `conversationHistory[0]`, or null before `init`. */
    var conversationHistory: SystemMessage?

    constructor ()
      ensures form == EMPTY_FORM && currentCharacterData == JNull && conversationHistory == null
    {
      form := EMPTY_FORM;
      currentCharacterData := JNull;
      conversationHistory := null;
    }

    method Init(history: SystemMessage)
      modifies this
      ensures conversationHistory == history
      ensures form == old(form) && currentCharacterData == old(currentCharacterData)
    {
      conversationHistory := history;
    }

    /** hasModifications: never with no card loaded; the form is compared with the
        stored card as it is, envelope and all. */
    function HasModifications(): (b: bool)
      reads this
      ensures b ==> Truthy(currentCharacterData)
      ensures !Truthy(currentCharacterData) ==> !b
      ensures !IsV2Envelope(currentCharacterData) ==> b == Modified(form, currentCharacterData)
    {
      ModifiedAsWritten(form, currentCharacterData)
    }

    /** clearCharacterFields: all eight fields empty, the system message back to the
        default, no card. */
    method ClearCharacterFields()
      modifies this, conversationHistory
      ensures form == EMPTY_FORM && currentCharacterData == JNull
      ensures conversationHistory == old(conversationHistory)
      ensures conversationHistory != null ==> conversationHistory.content == JString(DEFAULT_SYSTEM_PROMPT)
      ensures !HasModifications()
    {
      form := EMPTY_FORM;
      if conversationHistory != null {
        conversationHistory.content := JString(DEFAULT_SYSTEM_PROMPT);
      }
      currentCharacterData := JNull;
    }

    /** updateFromCharacterCard: a falsy card clears the form exactly as
        clearCharacterFields does; otherwise the card is stored and the form shows
        its unwrapped fields. The system message is left alone. */
    method UpdateFromCharacterCard(card: Json)
      modifies this, conversationHistory
      ensures conversationHistory == old(conversationHistory)
      ensures !Truthy(card) ==>
        && form == EMPTY_FORM && currentCharacterData == JNull
        && (conversationHistory != null ==> conversationHistory.content == JString(DEFAULT_SYSTEM_PROMPT))
      ensures Truthy(card) ==>
        && currentCharacterData == card && form == LoadedForm(Unwrap(card))
        && (conversationHistory != null ==> unchanged(conversationHistory))
      ensures Truthy(card) && !IsV2Envelope(card) && TextFields(card) ==> !HasModifications()
      ensures Truthy(card) && IsV2Envelope(card) ==>
        HasModifications() == ModifiedAsWritten(LoadedForm(Get(card, "data")), card)
      ensures (IsV2Envelope(card) && !Truthy(Get(card, "name")) &&
               Get(Get(card, "data"), "name").JString? && Get(Get(card, "data"), "name").s != "") ==>
        HasModifications()
    {
      if !Truthy(card) {
        ClearCharacterFields();
        return;
      }
      currentCharacterData := card;
      var data := Unwrap(card);
      form := LoadedForm(data);
      if !IsV2Envelope(card) && TextFields(card) {
        AsWrittenUnmodifiedWithoutEnvelope(card);
      }
      if IsV2Envelope(card) && !Truthy(Get(card, "name")) &&
         Get(Get(card, "data"), "name").JString? && Get(Get(card, "data"), "name").s != "" {
        EnvelopeReportedModified(card);
      }
    }

    /** applyCharacterChanges: the form becomes the stored card, with the tags
        parsed into a list; the system message takes the prompt only when the
        prompt is not empty. */
    method ApplyCharacterChanges()
      modifies this, conversationHistory
      ensures conversationHistory == old(conversationHistory) && form == old(form)
      ensures currentCharacterData == FormRecord(form)
      ensures conversationHistory != null ==>
        conversationHistory.content ==
          (if form.systemPrompt != "" then JString(form.systemPrompt) else old(conversationHistory.content))
      ensures HasModifications() <==>
        JoinTags(ParseTags(form.tags)) != form.tags || (form.systemPrompt == "" && form.description != "")
    {
      var f := form;
      var record := FormRecord(f);
      AppliedFormModifiedIff(f);
      ghost var history := conversationHistory;
      if conversationHistory != null && f.systemPrompt != "" {
        conversationHistory.content := JString(f.systemPrompt);
      }
      assert form == f && conversationHistory == history;
      currentCharacterData := record;
      assert conversationHistory == history;
      assert form == f && currentCharacterData == record;
      assert HasModifications() == ModifiedAsWritten(f, record);
    }

    /** The prompt field's `input` handler: the typed value is the field's value; the
        system message takes it only when it is not empty. */
    method OnSystemPromptInput(value: string)
      modifies this, conversationHistory
      ensures conversationHistory == old(conversationHistory)
      ensures form == old(form).(systemPrompt := value) && currentCharacterData == old(currentCharacterData)
      ensures conversationHistory != null ==>
        conversationHistory.content ==
          (if value != "" then JString(value) else old(conversationHistory.content))
    {
      form := form.(systemPrompt := value);
      if conversationHistory != null && value != "" {
        conversationHistory.content := JString(value);
      }
    }
  }
}
