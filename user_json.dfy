/**
 * The JSON form of the `User` record of examples/serde1.rs, as its serde
 * attributes define it: camel-cased keys, `age` renamed to "privateAge",
 * `skills` left out when empty and defaulted when absent, the work state
 * adjacently tagged, binary data in base64, the sensitive string sealed,
 * and URIs written through their display form.
 *
 * A JSON object is an abstract field map; the order in which keys are
 * written and the JSON text itself are not modelled. The libraries the
 * fields go through (chrono, http, UTF-8, base64, the cipher) are the
 * parameters bundled in `Libraries`.
 */
module UserJson {
  import opened Common
  import SealedData

  datatype Json =
    | JNull
    | JBool(b: bool)
    | JNumber(n: int)
    | JString(s: string)
    | JArray(items: seq<Json>)
    | JObject(fields: map<string, Json>)

  /** A UTC instant (chrono's `DateTime<Utc>`), as nanoseconds since the Unix epoch. */
  type Timestamp = int

  /** A parsed URI (`http::Uri`), by its parts. */
  datatype Uri = Uri(scheme: Option<string>, authority: Option<string>, pathAndQuery: string)

  /** A secret string, written out only in sealed form. */
  datatype SensitiveData = SensitiveData(secret: string)

  datatype WorkState = Working(role: string) | OnLeave(since: Timestamp) | Terminated

  datatype User = User(
    name: string,
    age: byte,
    dateOfBirth: Timestamp,
    skills: seq<string>,
    state: WorkState,
    data: seq<byte>,
    sensitive: SensitiveData,
    url: seq<Uri>)

  /**
   * The library codecs the fields go through: RFC 3339 text for dates, a
   * URI's display form, UTF-8, URL-safe unpadded base64, and the cipher.
   */
  datatype Libraries = Libraries(
    date: Codec<Timestamp, string>,
    uri: Codec<Uri, string>,
    utf8: Codec<string, seq<byte>>,
    base64: Codec<seq<byte>, string>,
    aead: SealedData.Aead)

  /** Every library keeps its promise. */
  ghost predicate Sound(lib: Libraries) {
    && lib.date.RoundTrips()
    && lib.uri.RoundTrips()
    && lib.utf8.RoundTrips()
    && lib.base64.RoundTrips()
    && SealedData.IsChaCha20Poly1305(lib.aead)
  }

  /** Why deserialisation stops; `Panicked` is a panic of the sealed-string parser, not an error value. */
  datatype DeError =
    | MissingField(key: string)
    | InvalidType(key: string)
    | InvalidValue(key: string)
    | UnknownVariant(tag: string)
    | Panicked(cause: SealedData.DecryptError)

  // ---------------------------------------------------------------------
  // Serde's renaming rules

  function AsciiUpper(c: char): char {
    if 'a' <= c <= 'z' then (c as int - 32) as char else c
  }

  function AsciiLower(c: char): char {
    if 'A' <= c <= 'Z' then (c as int + 32) as char else c
  }

  /**
   * serde's PascalCase of a snake_case name, from a position where the next
   * letter is capitalised or not: every `_` is dropped and the letter after
   * it is upper-cased.
   */
  function PascalCaseFrom(field: string, capitalize: bool): (r: string)
    ensures '_' !in r
    ensures |r| <= |field|
  {
    if field == [] then []
    else if field[0] == '_' then PascalCaseFrom(field[1..], true)
    else [if capitalize then AsciiUpper(field[0]) else field[0]] + PascalCaseFrom(field[1..], false)
  }

  /** `rename_all = "camelCase"` on an enum variant: its first letter lower-cased. */
  function CamelCaseVariant(variant: string): (r: string)
    ensures |r| == |variant|
    ensures variant != [] ==> r[0] == AsciiLower(variant[0])
    ensures forall i :: 1 <= i < |r| ==> r[i] == variant[i]
  {
    if variant == [] then [] else [AsciiLower(variant[0])] + variant[1..]
  }

  /** `rename_all = "camelCase"` on a struct field: PascalCase with its first letter lower-cased. */
  function CamelCaseField(field: string): (r: string)
    ensures '_' !in r
  {
    CamelCaseVariant(PascalCaseFrom(field, true))
  }

  /** The JSON key of a `User` field: `age` is renamed explicitly, the others camel-cased. */
  function FieldKey(field: string): (r: string)
    ensures '_' !in r
    ensures field == "age" ==> r == "privateAge"
    ensures field != "age" ==> |r| <= |field|
  {
    if field == "age" then "privateAge" else CamelCaseField(field)
  }

  const NAME_KEY: string := "name"
  const AGE_KEY: string := "privateAge"
  const DATE_OF_BIRTH_KEY: string := "dateOfBirth"
  const SKILLS_KEY: string := "skills"
  const STATE_KEY: string := "state"
  const DATA_KEY: string := "data"
  const SENSITIVE_KEY: string := "sensitive"
  const URL_KEY: string := "url"

  /** The keys every serialised `User` has. */
  const REQUIRED_KEYS: set<string> :=
    {NAME_KEY, AGE_KEY, DATE_OF_BIRTH_KEY, STATE_KEY, DATA_KEY, SENSITIVE_KEY, URL_KEY}

  const TYPE_KEY: string := "type"
  const DETAILS_KEY: string := "details"
  const WORKING_TAG: string := "working"
  const ON_LEAVE_TAG: string := "onLeave"
  const TERMINATED_TAG: string := "terminated"

  /** A name without `_` keeps its letters; only the first may be capitalised. */
  lemma {:induction false} PascalCaseOfWord(word: string, capitalize: bool)
    requires '_' !in word
    ensures PascalCaseFrom(word, capitalize)
         == if word == [] then [] else [if capitalize then AsciiUpper(word[0]) else word[0]] + word[1..]
  {
    if word != [] {
      PascalCaseOfWord(word[1..], false);
      assert [word[0]] + word[1..] == word;
    }
  }

  /** An `_` between two parts ends the first word and capitalises the next. */
  lemma {:induction false} PascalCaseOfJoin(first: string, rest: string, capitalize: bool)
    requires '_' !in first
    ensures PascalCaseFrom(first + "_" + rest, capitalize) == PascalCaseFrom(first, capitalize) + PascalCaseFrom(rest, true)
  {
    var joined := first + "_" + rest;
    if first == [] {
      assert joined[0] == '_' && joined[1..] == rest;
    } else {
      assert joined[0] == first[0];
      assert joined[1..] == first[1..] + "_" + rest;
      PascalCaseOfJoin(first[1..], rest, false);
    }
  }

  /** A single lower-case word is its own camelCase. */
  lemma CamelCaseOfWord(word: string)
    requires word != [] && '_' !in word && 'a' <= word[0] <= 'z'
    ensures CamelCaseField(word) == word
  {
    PascalCaseOfWord(word, true);
    assert [word[0]] + word[1..] == word;
  }

  /** A two-word snake_case name in PascalCase: both words capitalised, the `_` gone. */
  lemma PascalCaseOfTwoWords(first: string, second: string)
    requires first != [] && second != [] && '_' !in first && '_' !in second
    ensures PascalCaseFrom(first + "_" + second, true)
         == [AsciiUpper(first[0])] + first[1..] + [AsciiUpper(second[0])] + second[1..]
  {
    PascalCaseOfJoin(first, second, true);
    PascalCaseOfWord(first, true);
    PascalCaseOfWord(second, true);
  }

  /** Lower-casing an upper-cased ASCII lower-case letter gives it back. */
  lemma LowerOfUpper(c: char)
    requires 'a' <= c <= 'z'
    ensures AsciiLower(AsciiUpper(c)) == c
  {
  }

  /** camelCase of a name that starts with a given letter: that letter lower-cased, then the rest. */
  lemma CamelCaseVariantOfCons(c: char, rest: string)
    ensures CamelCaseVariant([c] + rest) == [AsciiLower(c)] + rest
  {
    assert ([c] + rest)[0] == c;
    assert ([c] + rest)[1..] == rest;
  }

  /** PascalCase of a name with a leading word: that word capitalised, then the PascalCase of what follows its `_`. */
  lemma PascalCaseOfLeadingWord(first: string, rest: string)
    requires first != [] && '_' !in first
    ensures PascalCaseFrom(first + "_" + rest, true) == [AsciiUpper(first[0])] + (first[1..] + PascalCaseFrom(rest, true))
  {
    PascalCaseOfJoin(first, rest, true);
    PascalCaseOfWord(first, true);
  }

  /** A lower-case first word stays as it is in camelCase; what follows its `_` is PascalCased. */
  lemma CamelCaseOfJoin(first: string, rest: string)
    requires first != [] && '_' !in first && 'a' <= first[0] <= 'z'
    ensures CamelCaseField(first + "_" + rest) == first + PascalCaseFrom(rest, true)
  {
    var tail := first[1..] + PascalCaseFrom(rest, true);
    PascalCaseOfLeadingWord(first, rest);
    CamelCaseVariantOfCons(AsciiUpper(first[0]), tail);
    LowerOfUpper(first[0]);
    assert [first[0]] + first[1..] == first;
  }

  /** A three-word snake_case name: the first word as it is, the others capitalised, the `_` gone. */
  lemma CamelCaseOfThreeWords(a: string, b: string, c: string)
    requires a != [] && b != [] && c != []
    requires '_' !in a && '_' !in b && '_' !in c && 'a' <= a[0] <= 'z'
    ensures CamelCaseField(a + "_" + b + "_" + c) == a + [AsciiUpper(b[0])] + b[1..] + [AsciiUpper(c[0])] + c[1..]
  {
    var tail := b + "_" + c;
    assert a + "_" + b + "_" + c == a + "_" + tail;
    CamelCaseOfJoin(a, tail);
    PascalCaseOfTwoWords(b, c);
  }

  /** The one-word keys used below are the ones the attributes produce from the Rust field names. */
  lemma WordKeysFollowRenameRules()
    ensures FieldKey("name") == NAME_KEY
    ensures FieldKey("age") == AGE_KEY
    ensures FieldKey("skills") == SKILLS_KEY
    ensures FieldKey("state") == STATE_KEY
  {
    CamelCaseOfWord("name");
    CamelCaseOfWord("skills");
    CamelCaseOfWord("state");
  }

  /** The other one-word keys. */
  lemma MoreWordKeysFollowRenameRules()
    ensures FieldKey("data") == DATA_KEY
    ensures FieldKey("sensitive") == SENSITIVE_KEY
    ensures FieldKey("url") == URL_KEY
  {
    CamelCaseOfWord("data");
    CamelCaseOfWord("sensitive");
    CamelCaseOfWord("url");
  }

  /**
   * `date_of_birth` is written as "dateOfBirth". (Stated of a name equal to
   * the field's rather than of the literal, which the verifier would
   * otherwise evaluate character by character.)
   */
  lemma DateOfBirthKeyFollowsRenameRule(field: string)
    requires field == "date_of_birth"
    ensures FieldKey(field) == DATE_OF_BIRTH_KEY
  {
    assert field == "date" + "_" + "of" + "_" + "birth";
    CamelCaseOfThreeWords("date", "of", "birth");
  }

  /** The tags used below are the ones the attribute produces from the Rust variant names. */
  lemma VariantTagsFollowRenameRule()
    ensures CamelCaseVariant("Working") == WORKING_TAG
    ensures CamelCaseVariant("OnLeave") == ON_LEAVE_TAG
    ensures CamelCaseVariant("Terminated") == TERMINATED_TAG
  {
  }

  // ---------------------------------------------------------------------
  // Sequences

  /** A JSON array of the elements' encodings, in order. */
  function EncodeSeq<T>(xs: seq<T>, enc: T -> Json): (r: seq<Json>)
    ensures |r| == |xs|
    ensures forall i :: 0 <= i < |xs| ==> r[i] == enc(xs[i])
  {
    seq(|xs|, i requires 0 <= i < |xs| => enc(xs[i]))
  }

  /** A JSON array decoded element by element; the first failing element decides the error. */
  function DecodeSeq<T>(items: seq<Json>, dec: Json -> Result<T, DeError>): (r: Result<seq<T>, DeError>)
    ensures r.Success? <==> forall i :: 0 <= i < |items| ==> dec(items[i]).Success?
    ensures r.Success? ==> |r.value| == |items|
    ensures r.Success? ==> forall i :: 0 <= i < |items| ==> dec(items[i]) == Success(r.value[i])
  {
    if items == [] then Success([])
    else
      var x :- dec(items[0]);
      var rest :- DecodeSeq(items[1..], dec);
      Success([x] + rest)
  }

  /** Decoding the encodings of a sequence gives it back when each element round-trips. */
  lemma {:induction false} DecodeEncodeSeq<T>(xs: seq<T>, enc: T -> Json, dec: Json -> Result<T, DeError>)
    requires forall i :: 0 <= i < |xs| ==> dec(enc(xs[i])) == Success(xs[i])
    ensures DecodeSeq(EncodeSeq(xs, enc), dec) == Success(xs)
  {
    if xs != [] {
      DecodeEncodeSeq(xs[1..], enc, dec);
      assert EncodeSeq(xs, enc)[1..] == EncodeSeq(xs[1..], enc);
      assert [xs[0]] + xs[1..] == xs;
    }
  }

  // ---------------------------------------------------------------------
  // Field codecs

  /** A JSON string, or an error naming the key it was under. */
  function ExpectString(j: Json, key: string): (r: Result<string, DeError>)
    ensures r.Success? <==> j.JString?
    ensures r.Success? ==> r.value == j.s
  {
    if j.JString? then Success(j.s) else Failure(InvalidType(key))
  }

  /** A `u8`: an integer in 0..255; another integer is out of range, anything else the wrong type. */
  function ExpectByte(j: Json, key: string): (r: Result<byte, DeError>)
    ensures r.Success? <==> j.JNumber? && 0 <= j.n < 256
    ensures r.Success? ==> r.value == j.n
  {
    if !j.JNumber? then Failure(InvalidType(key))
    else if 0 <= j.n < 256 then Success(j.n)
    else Failure(InvalidValue(key))
  }

  /** Text through a library parser. */
  function Parse<A(!new)>(codec: Codec<A, string>, text: string, key: string): (r: Result<A, DeError>)
    ensures r.Success? <==> codec.dec(text).Some?
    ensures r.Success? ==> codec.dec(text) == Some(r.value)
    ensures r.Failure? ==> r.error == InvalidValue(key)
  {
    match codec.dec(text)
    case Some(a) => Success(a)
    case None => Failure(InvalidValue(key))
  }

  /** A required field: its value, or `MissingField`. */
  function Required(obj: map<string, Json>, key: string): (r: Result<Json, DeError>)
    ensures r.Success? <==> key in obj
    ensures r.Success? ==> r.value == obj[key]
  {
    if key in obj then Success(obj[key]) else Failure(MissingField(key))
  }

  /** A required string field. */
  function StringField(obj: map<string, Json>, key: string): (r: Result<string, DeError>)
    ensures r.Success? <==> key in obj && obj[key].JString?
    ensures r.Success? ==> obj[key] == JString(r.value)
  {
    var value :- Required(obj, key);
    ExpectString(value, key)
  }

  /** A required string field read through a library parser. */
  function ParsedField<A(!new)>(obj: map<string, Json>, key: string, codec: Codec<A, string>): (r: Result<A, DeError>)
    ensures r.Success? <==> key in obj && obj[key].JString? && codec.dec(obj[key].s).Some?
    ensures r.Success? ==> key in obj && obj[key].JString? && codec.dec(obj[key].s) == Some(r.value)
    ensures key in obj && obj[key].JString? && codec.RoundTrips() ==>
              forall a :: obj[key].s == codec.enc(a) ==> r == Success(a)
  {
    var text :- StringField(obj, key);
    Parse(codec, text, key)
  }

  /** `skip_serializing_if = "Vec::is_empty"`: the skills entry, if one is written. */
  function EmitSkills(skills: seq<string>): (r: Option<Json>)
    ensures r.None? <==> skills == []
  {
    if skills == [] then None else Some(JArray(EncodeSeq(skills, s => JString(s))))
  }

  /** `default`: an absent skills entry reads as the empty list. */
  function ReadSkills(entry: Option<Json>): (r: Result<seq<string>, DeError>)
    ensures entry.None? ==> r == Success([])
    ensures entry.Some? && !entry.value.JArray? ==> r == Failure(InvalidType(SKILLS_KEY))
    ensures entry.Some? && entry.value.JArray? ==>
              (r.Success? <==> forall i :: 0 <= i < |entry.value.items| ==> entry.value.items[i].JString?)
    ensures r.Success? && entry.Some? ==>
              && entry.value.JArray? && |r.value| == |entry.value.items|
              && forall i :: 0 <= i < |r.value| ==> entry.value.items[i] == JString(r.value[i])
  {
    match entry
    case None => Success([])
    case Some(JArray(items)) => DecodeSeq(items, j => ExpectString(j, SKILLS_KEY))
    case Some(_) => Failure(InvalidType(SKILLS_KEY))
  }

  /** Skipping the empty list and defaulting the absent one lose nothing: every list round-trips. */
  lemma {:induction false} SkillsRoundTrip(skills: seq<string>)
    ensures ReadSkills(EmitSkills(skills)) == Success(skills)
  {
    if skills != [] {
      DecodeEncodeSeq(skills, s => JString(s), j => ExpectString(j, SKILLS_KEY));
    }
  }

  /** `tag = "type", content = "details"`: the variant's camel-cased name under "type", its payload under "details". */
  function EncodeState(state: WorkState, lib: Libraries): (j: Json)
    ensures j.JObject? && TYPE_KEY in j.fields
    ensures j.fields.Keys == if state.Terminated? then {TYPE_KEY} else {TYPE_KEY, DETAILS_KEY}
    ensures state.Working? ==> j.fields[TYPE_KEY] == JString(WORKING_TAG) && j.fields[DETAILS_KEY] == JString(state.role)
    ensures state.OnLeave? ==> j.fields[TYPE_KEY] == JString(ON_LEAVE_TAG) && j.fields[DETAILS_KEY] == JString(lib.date.enc(state.since))
    ensures state.Terminated? ==> j.fields[TYPE_KEY] == JString(TERMINATED_TAG)
  {
    match state
    case Working(role) => JObject(map[TYPE_KEY := JString(WORKING_TAG), DETAILS_KEY := JString(role)])
    case OnLeave(since) => JObject(map[TYPE_KEY := JString(ON_LEAVE_TAG), DETAILS_KEY := JString(lib.date.enc(since))])
    case Terminated => JObject(map[TYPE_KEY := JString(TERMINATED_TAG)])
  }

  /**
   * An adjacently tagged work state: the tag picks the variant, a payload
   * variant needs "details", and the unit variant accepts none or `null`.
   */
  function DecodeState(j: Json, lib: Libraries): (r: Result<WorkState, DeError>)
    ensures !j.JObject? ==> r == Failure(InvalidType(STATE_KEY))
    ensures j.JObject? && TYPE_KEY !in j.fields ==> r == Failure(MissingField(TYPE_KEY))
    ensures r.Success? ==> j.JObject? && j.fields[TYPE_KEY] == JString(
                             match r.value
                             case Working(_) => WORKING_TAG
                             case OnLeave(_) => ON_LEAVE_TAG
                             case Terminated => TERMINATED_TAG)
    ensures j.JObject? && TYPE_KEY in j.fields && j.fields[TYPE_KEY].JString?
            && j.fields[TYPE_KEY].s != WORKING_TAG && j.fields[TYPE_KEY].s != ON_LEAVE_TAG
            && j.fields[TYPE_KEY].s != TERMINATED_TAG
            ==> r == Failure(UnknownVariant(j.fields[TYPE_KEY].s))
    ensures r.Success? && r.value.Working? ==> DETAILS_KEY in j.fields && j.fields[DETAILS_KEY] == JString(r.value.role)
    ensures r.Success? && r.value.OnLeave? ==>
              && DETAILS_KEY in j.fields && j.fields[DETAILS_KEY].JString?
              && lib.date.dec(j.fields[DETAILS_KEY].s) == Some(r.value.since)
    ensures r.Success? && r.value.Terminated? ==> DETAILS_KEY !in j.fields || j.fields[DETAILS_KEY] == JNull
    ensures j.JObject? && TYPE_KEY in j.fields && j.fields[TYPE_KEY] == JString(WORKING_TAG)
            && DETAILS_KEY in j.fields && j.fields[DETAILS_KEY].JString?
            ==> r == Success(Working(j.fields[DETAILS_KEY].s))
    ensures j.JObject? && TYPE_KEY in j.fields && j.fields[TYPE_KEY] == JString(ON_LEAVE_TAG)
            && DETAILS_KEY in j.fields && j.fields[DETAILS_KEY].JString? && lib.date.dec(j.fields[DETAILS_KEY].s).Some?
            ==> r == Success(OnLeave(lib.date.dec(j.fields[DETAILS_KEY].s).value))
    ensures j.JObject? && TYPE_KEY in j.fields && j.fields[TYPE_KEY] == JString(TERMINATED_TAG)
            && (DETAILS_KEY !in j.fields || j.fields[DETAILS_KEY] == JNull)
            ==> r == Success(Terminated)
  {
    if !j.JObject? then Failure(InvalidType(STATE_KEY))
    else
      var tagValue :- Required(j.fields, TYPE_KEY);
      var tag :- ExpectString(tagValue, TYPE_KEY);
      var details := if DETAILS_KEY in j.fields then Some(j.fields[DETAILS_KEY]) else None;
      if tag == WORKING_TAG then
        var payload :- Required(j.fields, DETAILS_KEY);
        var role :- ExpectString(payload, DETAILS_KEY);
        Success(Working(role))
      else if tag == ON_LEAVE_TAG then
        var payload :- Required(j.fields, DETAILS_KEY);
        var text :- ExpectString(payload, DETAILS_KEY);
        var since :- Parse(lib.date, text, DETAILS_KEY);
        Success(OnLeave(since))
      else if tag == TERMINATED_TAG then
        if details.None? || details.value == JNull then Success(Terminated)
        else Failure(InvalidType(DETAILS_KEY))
      else Failure(UnknownVariant(tag))
  }

  /** Every work state round-trips through its tagged form. */
  lemma StateRoundTrip(state: WorkState, lib: Libraries)
    requires lib.date.RoundTrips()
    ensures DecodeState(EncodeState(state, lib), lib) == Success(state)
  {
    var m := EncodeState(state, lib).fields;
    assert m[TYPE_KEY].s != ON_LEAVE_TAG ==> !state.OnLeave?;
  }

  /**
   * `Display for SensitiveData`: the UTF-8 bytes, encrypted under a fresh
   * nonce; the cipher's decryption of the text gives those bytes back.
   */
  function DisplaySensitive(d: SensitiveData, lib: Libraries, nonce: SealedData.Nonce): (r: string)
    ensures Sound(lib) ==> SealedData.Decrypt(r, lib.aead, lib.base64) == Success(lib.utf8.enc(d.secret))
  {
    SealedData.Encrypt(lib.utf8.enc(d.secret), nonce, lib.aead, lib.base64)
  }

  /**
   * `FromStr for SensitiveData`: decrypt, then read UTF-8. A base64 error or
   * invalid UTF-8 is an error value; a short frame or a forged tag panics.
   */
  function ParseSensitive(text: string, lib: Libraries): (r: Result<SensitiveData, DeError>)
    ensures r.Failure? && r.error.Panicked? <==>
              SealedData.Decrypt(text, lib.aead, lib.base64).Failure? && SealedData.Decrypt(text, lib.aead, lib.base64).error.IsPanic()
    ensures r.Success? <==>
              SealedData.Decrypt(text, lib.aead, lib.base64).Success? && lib.utf8.dec(SealedData.Decrypt(text, lib.aead, lib.base64).value).Some?
    ensures r.Success? ==> lib.utf8.dec(SealedData.Decrypt(text, lib.aead, lib.base64).value) == Some(r.value.secret)
  {
    match SealedData.Decrypt(text, lib.aead, lib.base64)
    case Failure(e) => if e.IsPanic() then Failure(Panicked(e)) else Failure(InvalidValue(SENSITIVE_KEY))
    case Success(bytes) =>
      match lib.utf8.dec(bytes)
      case None => Failure(InvalidValue(SENSITIVE_KEY))
      case Some(s) => Success(SensitiveData(s))
  }

  /** A sealed secret reads back as itself, whatever nonce sealed it. */
  lemma SensitiveRoundTrip(d: SensitiveData, lib: Libraries, nonce: SealedData.Nonce)
    requires Sound(lib)
    ensures ParseSensitive(DisplaySensitive(d, lib, nonce), lib) == Success(d)
  {
    SealedData.DecryptEncrypt(lib.utf8.enc(d.secret), nonce, lib.aead, lib.base64);
  }

  /** A URI through `Display` / `FromStr`. */
  function ParseUri(j: Json, lib: Libraries): (r: Result<Uri, DeError>)
    ensures !j.JString? ==> r == Failure(InvalidType(URL_KEY))
    ensures r.Success? <==> j.JString? && lib.uri.dec(j.s).Some?
    ensures r.Success? ==> lib.uri.dec(j.s) == Some(r.value)
  {
    var text :- ExpectString(j, URL_KEY);
    Parse(lib.uri, text, URL_KEY)
  }

  // ---------------------------------------------------------------------
  // The whole record

  /**
   * `serde_json::to_string(&user)` as a field map; `nonce` is the one the
   * sensitive field is sealed under.
   */
  function Serialize(u: User, lib: Libraries, nonce: SealedData.Nonce): (obj: map<string, Json>)
    ensures obj.Keys == if u.skills == [] then REQUIRED_KEYS else REQUIRED_KEYS + {SKILLS_KEY}
    ensures obj[AGE_KEY] == JNumber(u.age) && obj[NAME_KEY] == JString(u.name)
  {
    var fields := map[
      NAME_KEY := JString(u.name),
      AGE_KEY := JNumber(u.age),
      DATE_OF_BIRTH_KEY := JString(lib.date.enc(u.dateOfBirth)),
      STATE_KEY := EncodeState(u.state, lib),
      DATA_KEY := JString(lib.base64.enc(u.data)),
      SENSITIVE_KEY := JString(DisplaySensitive(u.sensitive, lib, nonce)),
      URL_KEY := JArray(EncodeSeq(u.url, x => JString(lib.uri.enc(x))))];
    match EmitSkills(u.skills)
    case None => fields
    case Some(skills) => fields[SKILLS_KEY := skills]
  }

  /**
   * What each key of a serialised user holds. This only unfolds `Serialize`,
   * as a step `RoundTrip` uses.
   */
  lemma SerializedFields(u: User, lib: Libraries, nonce: SealedData.Nonce)
    ensures var obj := Serialize(u, lib, nonce);
            && obj[NAME_KEY] == JString(u.name)
            && obj[AGE_KEY] == JNumber(u.age)
            && obj[DATE_OF_BIRTH_KEY] == JString(lib.date.enc(u.dateOfBirth))
            && (SKILLS_KEY in obj ==> Some(obj[SKILLS_KEY]) == EmitSkills(u.skills))
            && obj[STATE_KEY] == EncodeState(u.state, lib)
            && obj[DATA_KEY] == JString(lib.base64.enc(u.data))
            && obj[SENSITIVE_KEY] == JString(DisplaySensitive(u.sensitive, lib, nonce))
            && obj[URL_KEY] == JArray(EncodeSeq(u.url, x => JString(lib.uri.enc(x))))
  {
  }

  /** The Rust names of the renamed fields never appear as keys: the age is only under "privateAge". */
  lemma RustNamesAreNotKeys(u: User, lib: Libraries, nonce: SealedData.Nonce)
    ensures "age" !in Serialize(u, lib, nonce) && "date_of_birth" !in Serialize(u, lib, nonce)
    ensures AGE_KEY in Serialize(u, lib, nonce) && DATE_OF_BIRTH_KEY in Serialize(u, lib, nonce)
  {
    var keys := Serialize(u, lib, nonce).Keys;
    assert REQUIRED_KEYS <= keys <= REQUIRED_KEYS + {SKILLS_KEY};
    KeyNames();
  }

  /** Which names are among the keys a user can be written with. */
  lemma KeyNames()
    ensures "age" !in REQUIRED_KEYS + {SKILLS_KEY} && "date_of_birth" !in REQUIRED_KEYS + {SKILLS_KEY}
    ensures AGE_KEY in REQUIRED_KEYS && DATE_OF_BIRTH_KEY in REQUIRED_KEYS
  {
  }

  /** `serde_json::from_str::<User>` on a field map; keys it does not know are ignored. */
  function Deserialize(obj: map<string, Json>, lib: Libraries): (r: Result<User, DeError>)
    ensures !(REQUIRED_KEYS <= obj.Keys) ==> r.Failure?
    ensures r.Success? ==> obj[NAME_KEY] == JString(r.value.name) && obj[AGE_KEY] == JNumber(r.value.age)
    ensures r.Success? && SKILLS_KEY !in obj ==> r.value.skills == []
  {
    var name :- StringField(obj, NAME_KEY);
    var ageValue :- Required(obj, AGE_KEY);
    var age :- ExpectByte(ageValue, AGE_KEY);
    var dateOfBirth :- ParsedField(obj, DATE_OF_BIRTH_KEY, lib.date);
    var skills :- ReadSkills(if SKILLS_KEY in obj then Some(obj[SKILLS_KEY]) else None);
    var stateValue :- Required(obj, STATE_KEY);
    var state :- DecodeState(stateValue, lib);
    var data :- ParsedField(obj, DATA_KEY, lib.base64);
    var sensitiveText :- StringField(obj, SENSITIVE_KEY);
    var sensitive :- ParseSensitive(sensitiveText, lib);
    var urlValue :- Required(obj, URL_KEY);
    var url :- if urlValue.JArray? then DecodeSeq(urlValue.items, j => ParseUri(j, lib))
               else Failure(InvalidType(URL_KEY));
    Success(User(name, age, dateOfBirth, skills, state, data, sensitive, url))
  }

  /** A field map whose every field reads back as the corresponding field of `u` deserialises to `u`. */
  lemma FieldsReadBack(obj: map<string, Json>, lib: Libraries, u: User)
    requires StringField(obj, NAME_KEY) == Success(u.name)
    requires Required(obj, AGE_KEY) == Success(JNumber(u.age))
    requires ParsedField(obj, DATE_OF_BIRTH_KEY, lib.date) == Success(u.dateOfBirth)
    requires ReadSkills(if SKILLS_KEY in obj then Some(obj[SKILLS_KEY]) else None) == Success(u.skills)
    requires STATE_KEY in obj && DecodeState(obj[STATE_KEY], lib) == Success(u.state)
    requires ParsedField(obj, DATA_KEY, lib.base64) == Success(u.data)
    requires StringField(obj, SENSITIVE_KEY).Success?
    requires ParseSensitive(StringField(obj, SENSITIVE_KEY).value, lib) == Success(u.sensitive)
    requires URL_KEY in obj && obj[URL_KEY].JArray?
    requires DecodeSeq(obj[URL_KEY].items, j => ParseUri(j, lib)) == Success(u.url)
    ensures Deserialize(obj, lib) == Success(u)
  {
  }

  /**
   * The converse of `FieldsReadBack`: a deserialised user's every field is
   * what its key holds, read the way its attribute prescribes, so an object
   * with a malformed field is rejected.
   */
  lemma DeserializedFields(obj: map<string, Json>, lib: Libraries, u: User)
    requires Deserialize(obj, lib) == Success(u)
    ensures StringField(obj, NAME_KEY) == Success(u.name)
    ensures Required(obj, AGE_KEY) == Success(JNumber(u.age))
    ensures ParsedField(obj, DATE_OF_BIRTH_KEY, lib.date) == Success(u.dateOfBirth)
    ensures ReadSkills(if SKILLS_KEY in obj then Some(obj[SKILLS_KEY]) else None) == Success(u.skills)
    ensures STATE_KEY in obj && DecodeState(obj[STATE_KEY], lib) == Success(u.state)
    ensures ParsedField(obj, DATA_KEY, lib.base64) == Success(u.data)
    ensures StringField(obj, SENSITIVE_KEY).Success?
    ensures ParseSensitive(StringField(obj, SENSITIVE_KEY).value, lib) == Success(u.sensitive)
    ensures URL_KEY in obj && obj[URL_KEY].JArray?
    ensures DecodeSeq(obj[URL_KEY].items, j => ParseUri(j, lib)) == Success(u.url)
  {
  }

  /** A serialised user reads back as the same user, for every nonce. */
  lemma RoundTrip(u: User, lib: Libraries, nonce: SealedData.Nonce)
    requires Sound(lib)
    ensures Deserialize(Serialize(u, lib, nonce), lib) == Success(u)
  {
    var obj := Serialize(u, lib, nonce);
    SerializedFields(u, lib, nonce);
    assert ReadSkills(if SKILLS_KEY in obj then Some(obj[SKILLS_KEY]) else None) == Success(u.skills) by {
      SkillsRoundTrip(u.skills);
    }
    assert DecodeState(obj[STATE_KEY], lib) == Success(u.state) by {
      StateRoundTrip(u.state, lib);
    }
    assert ParseSensitive(obj[SENSITIVE_KEY].s, lib) == Success(u.sensitive) by {
      SensitiveRoundTrip(u.sensitive, lib, nonce);
    }
    assert DecodeSeq(obj[URL_KEY].items, j => ParseUri(j, lib)) == Success(u.url) by {
      DecodeEncodeSeq(u.url, x => JString(lib.uri.enc(x)), j => ParseUri(j, lib));
    }
    FieldsReadBack(obj, lib, u);
  }

  /** Keys outside the record's own are ignored on input. */
  lemma UnknownKeysIgnored(obj: map<string, Json>, key: string, value: Json, lib: Libraries)
    requires key !in REQUIRED_KEYS && key != SKILLS_KEY
    ensures Deserialize(obj[key := value], lib) == Deserialize(obj, lib)
  {
  }
}
