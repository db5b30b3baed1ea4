/**
  `CaptionEntity`: the generated caption, which validates itself when it is
  constructed, and its dictionary form.

  The dataclass does not check field types: the values come straight from
  the parsed JSON. `Construct` therefore takes the four raw JSON values and
  follows what Python's `validate()` does with each kind of value, while a
  constructed entity holds plain strings.
 */
module Entities {
  import opened Wrappers
  import opened Text
  import opened JsonValues
  import opened Errors

  datatype CaptionEntity = CaptionEntity(
    shortCaption: string,
    longDescription: string,
    hashtags: seq<string>,
    cta: string)

  const MaxHashtags: nat := 10

  const ShortCaptionEmpty := "Short caption cannot be empty"
  const LongDescriptionEmpty := "Long description cannot be empty"
  const CtaEmpty := "CTA cannot be empty"
  const NoHashtags := "At least one hashtag is required"
  const TooManyHashtags := "Too many hashtags (maximum 10)"
  const EmptyHashtag := "Hashtags cannot be empty"

  function HashtagContainsHash(tag: string): string {
    "Hashtag '" + tag + "' should not contain # symbol"
  }

  /** A hashtag is acceptable when it has no `#` and is not blank. */
  predicate ValidTag(tag: string) {
    '#' !in tag && !AllSpace(tag)
  }

  /**
    The Python classes `from_dict` can raise: a missing key, a broken rule,
    or a value of the wrong type. Never a domain error.
   */
  predicate DataError(err: Raised) {
    err.KeyError? || err.ValueError? || err.TypeError? || err.AttributeError?
  }

  /** The business rules, each stated on its own. */
  predicate Valid(e: CaptionEntity) {
    && !AllSpace(e.shortCaption)
    && !AllSpace(e.longDescription)
    && !AllSpace(e.cta)
    && 1 <= |e.hashtags| <= MaxHashtags
    && forall i :: 0 <= i < |e.hashtags| ==> ValidTag(e.hashtags[i])
  }

  /** The message for an unacceptable hashtag: the `#` check comes before the emptiness check. */
  function TagError(tag: string): string {
    if '#' in tag then HashtagContainsHash(tag) else EmptyHashtag
  }

  /**
    `not x or len(x.strip()) == 0` on a text field. A falsy value and a
    blank string raise the field's ValueError; a truthy value that is not a
    string has no `strip` and raises AttributeError.
   */
  function TextField(x: Json, emptyMessage: string): (r: Result<string, Raised>)
    ensures r.Success? <==> x.JString? && !AllSpace(x.str)
    ensures r.Success? ==> x == JString(r.value)
    ensures r.Failure? && (x.JString? || Falsy(x)) ==> r.error == ValueError(emptyMessage)
    ensures r.Failure? && !x.JString? && !Falsy(x) ==> r.error.AttributeError?
    ensures r.Failure? ==> DataError(r.error)
  {
    if Falsy(x) then Failure(ValueError(emptyMessage))
    else match x
      case JString(s) => if |Strip(s)| == 0 then Failure(ValueError(emptyMessage)) else Success(s)
      case _ => Failure(AttributeError("'" + TypeName(x) + "' object has no attribute 'strip'"))
  }

  /**
    What `len(hashtags)` counts and `for tag in hashtags` visits: the items
    of a list, the characters of a string, the keys of a dict. Anything else
    has no length.
   */
  function TagItems(x: Json): (r: Result<seq<Json>, Raised>)
    ensures x.JArray? ==> r == Success(x.items)
    ensures x.JString? ==> r.Success? && |r.value| == |x.str|
    ensures x.JString? ==> forall i :: 0 <= i < |x.str| ==> r.value[i] == JString([x.str[i]])
    ensures x.JObject? ==> r.Success? && |r.value| == |x.fields|
    ensures x.JObject? ==> forall i :: 0 <= i < |x.fields| ==> r.value[i] == JString(x.fields[i].0)
    ensures r.Failure? <==> x.JNull? || x.JBool? || x.JNumber?
    ensures r.Failure? ==> r.error.TypeError?
  {
    match x
    case JArray(xs) => Success(xs)
    case JString(s) => Success(seq(|s|, i requires 0 <= i < |s| => JString([s[i]])))
    case JObject(fs) => Success(seq(|fs|, i requires 0 <= i < |fs| => JString(fs[i].0)))
    case _ => Failure(TypeError("object of type '" + TypeName(x) + "' has no len()"))
  }

  /**
    The two checks on one hashtag: `"#" in tag` first, then
    `not tag or len(tag.strip()) == 0`.
   */
  function CheckTag(tag: Json): (r: Result<string, Raised>)
    ensures r.Success? <==> tag.JString? && ValidTag(tag.str)
    ensures r.Success? ==> tag == JString(r.value)
    ensures tag.JString? && r.Failure? ==> r.error == ValueError(TagError(tag.str))
    ensures r.Failure? ==> DataError(r.error)
  {
    var hasHash: Result<bool, Raised> :=
      match tag
      case JString(s) => Success('#' in s)
      case JArray(xs) => Success(JString("#") in xs)
      case JObject(fs) => Success("#" in Keys(fs))
      case _ => Failure(TypeError("argument of type '" + TypeName(tag) + "' is not iterable"));
    if hasHash.Failure? then Failure(hasHash.error)
    else if hasHash.value then Failure(ValueError(HashtagContainsHash(Show(tag))))
    else if Falsy(tag) then Failure(ValueError(EmptyHashtag))
    else match tag
      case JString(s) => if |Strip(s)| == 0 then Failure(ValueError(EmptyHashtag)) else Success(s)
      case _ => Failure(AttributeError("'" + TypeName(tag) + "' object has no attribute 'strip'"))
  }

  /** The loop over the hashtags: the first tag that fails a check stops it. */
  function CheckTags(items: seq<Json>): (r: Result<seq<string>, Raised>)
    ensures r.Success? <==> forall i :: 0 <= i < |items| ==> items[i].JString? && ValidTag(items[i].str)
    ensures r.Success? ==> |r.value| == |items|
    ensures r.Success? ==> forall i :: 0 <= i < |items| ==> items[i] == JString(r.value[i])
    ensures r.Failure? ==> DataError(r.error)
  {
    if |items| == 0 then Success([])
    else
      var tag :- CheckTag(items[0]);
      var rest :- CheckTags(items[1..]);
      assert forall i :: 1 <= i < |items| ==> items[i] == items[1..][i - 1];
      Success([tag] + rest)
  }

  /** The failure `CheckTags` reports is the one of the first failing tag. */
  lemma {:induction false} CheckTagsFirstFailure(items: seq<Json>, i: nat)
    requires i < |items| && CheckTag(items[i]).Failure?
    requires forall k :: 0 <= k < i ==> CheckTag(items[k]).Success?
    ensures CheckTags(items) == Failure(CheckTag(items[i]).error)
  {
    if i > 0 {
      var rest := items[1..];
      assert rest[i - 1] == items[i];
      assert forall k :: 0 <= k < i - 1 ==> rest[k] == items[k + 1];
      CheckTagsFirstFailure(rest, i - 1);
      assert CheckTag(items[0]).Success?;
    }
  }

  /** Iterating `x` visits exactly the strings `tags`, in order. */
  predicate TagsOf(x: Json, tags: seq<string>) {
    && TagItems(x).Success?
    && |TagItems(x).value| == |tags|
    && forall i :: 0 <= i < |tags| ==> TagItems(x).value[i] == JString(tags[i])
  }

  /** The hashtag checks: at least one, at most ten, then each tag in turn. */
  function TagField(x: Json): (r: Result<seq<string>, Raised>)
    ensures r.Success? ==> 1 <= |r.value| <= MaxHashtags
    ensures r.Success? ==> forall i :: 0 <= i < |r.value| ==> ValidTag(r.value[i])
    ensures r.Success? ==> TagsOf(x, r.value)
    ensures r.Failure? ==> DataError(r.error)
  {
    var items :- TagItems(x);
    if |items| == 0 then Failure(ValueError(NoHashtags))
    else if |items| > MaxHashtags then Failure(ValueError(TooManyHashtags))
    else CheckTags(items)
  }

  /**
    `CaptionEntity(short_caption=…, long_description=…, hashtags=…, cta=…)`:
    the dataclass constructor, which runs `validate()` on the values it is
    given. Checks run in the order short caption, long description, CTA,
    hashtags; the first failure is raised, so no invalid entity is ever built.
   */
  function Construct(short: Json, long: Json, tags: Json, cta: Json): (r: Result<CaptionEntity, Raised>)
    ensures r.Success? ==> Valid(r.value)
    ensures r.Success? ==> (
      && short == JString(r.value.shortCaption)
      && long == JString(r.value.longDescription)
      && cta == JString(r.value.cta))
    ensures r.Success? ==> TagsOf(tags, r.value.hashtags)
    ensures r.Failure? ==> DataError(r.error)
  {
    var s :- TextField(short, ShortCaptionEmpty);
    var l :- TextField(long, LongDescriptionEmpty);
    var c :- TextField(cta, CtaEmpty);
    var h :- TagField(tags);
    Success(CaptionEntity(s, l, h, c))
  }

  /** The hashtags as a JSON list of strings. */
  function TagList(tags: seq<string>): (r: Json)
    ensures r.JArray? && |r.items| == |tags|
    ensures forall i :: 0 <= i < |tags| ==> r.items[i] == JString(tags[i])
  {
    JArray(seq(|tags|, i requires 0 <= i < |tags| => JString(tags[i])))
  }

  /** Building an entity from its own fields succeeds exactly when it is valid, and then gives it back. */
  lemma ConstructOfEntity(e: CaptionEntity)
    ensures var r := Construct(JString(e.shortCaption), JString(e.longDescription), TagList(e.hashtags), JString(e.cta));
      && (r.Success? <==> Valid(e))
      && (r.Success? ==> r.value == e)
      && (r.Failure? ==> r.error.ValueError?)
  {
    TagFieldOfList(e.hashtags);
  }

  /** The hashtag checks on a list of strings: pass exactly for an acceptable list, which they keep. */
  lemma TagFieldOfList(tags: seq<string>)
    ensures var r := TagField(TagList(tags));
      && (r.Success? <==> 1 <= |tags| <= MaxHashtags && forall i :: 0 <= i < |tags| ==> ValidTag(tags[i]))
      && (r.Success? ==> r.value == tags)
      && (r.Failure? ==> r.error.ValueError?)
  {
    CheckTagList(tags);
  }

  /** The hashtag loop over a list of strings passes exactly when every tag is acceptable, and keeps them all. */
  lemma CheckTagList(tags: seq<string>)
    ensures var r := CheckTags(TagList(tags).items);
      && (r.Success? <==> forall i :: 0 <= i < |tags| ==> ValidTag(tags[i]))
      && (r.Success? ==> r.value == tags)
      && (r.Failure? ==> r.error.ValueError?)
  {
    var items := TagList(tags).items;
    var r := CheckTags(items);
    if r.Success? {
      assert r.value == tags;
    } else {
      var i :| 0 <= i < |items| && !(items[i].JString? && ValidTag(items[i].str));
      var j := FirstFailingTag(items, i);
      CheckTagsFirstFailure(items, j);
    }
  }

  /** The index of the first failing tag, at or before a known failing one. */
  lemma {:induction false} FirstFailingTag(items: seq<Json>, i: nat) returns (j: nat)
    requires i < |items| && CheckTag(items[i]).Failure?
    ensures j <= i && CheckTag(items[j]).Failure?
    ensures forall k :: 0 <= k < j ==> CheckTag(items[k]).Success?
    decreases i
  {
    if exists k :: 0 <= k < i && CheckTag(items[k]).Failure? {
      var k :| 0 <= k < i && CheckTag(items[k]).Failure?;
      j := FirstFailingTag(items, k);
    } else {
      j := i;
    }
  }

  /**
    `entity.validate()` on an entity with string fields: passes exactly when
    the business rules hold, and otherwise raises ValueError.
   */
  function Validate(e: CaptionEntity): (r: Outcome<Raised>)
    ensures r.Pass? <==> Valid(e)
    ensures r.Fail? ==> r.error.ValueError?
  {
    ConstructOfEntity(e);
    match Construct(JString(e.shortCaption), JString(e.longDescription), TagList(e.hashtags), JString(e.cta))
    case Success(_) => Pass
    case Failure(err) => Fail(err)
  }

  /** The error `validate()` reports is the first failing check, in source order. */
  lemma ValidationOrder(e: CaptionEntity)
    ensures AllSpace(e.shortCaption) ==> Validate(e) == Fail(ValueError(ShortCaptionEmpty))
    ensures !AllSpace(e.shortCaption) && AllSpace(e.longDescription) ==>
      Validate(e) == Fail(ValueError(LongDescriptionEmpty))
    ensures !AllSpace(e.shortCaption) && !AllSpace(e.longDescription) && AllSpace(e.cta) ==>
      Validate(e) == Fail(ValueError(CtaEmpty))
    ensures !AllSpace(e.shortCaption) && !AllSpace(e.longDescription) && !AllSpace(e.cta) ==>
      && (|e.hashtags| == 0 ==> Validate(e) == Fail(ValueError(NoHashtags)))
      && (|e.hashtags| > MaxHashtags ==> Validate(e) == Fail(ValueError(TooManyHashtags)))
  {
  }

  /**
    With the text fields and the count in order, the error is the one of the
    first unacceptable hashtag, `#` reported before blankness.
   */
  lemma ValidationReportsFirstBadTag(e: CaptionEntity, i: nat)
    requires !AllSpace(e.shortCaption) && !AllSpace(e.longDescription) && !AllSpace(e.cta)
    requires 1 <= |e.hashtags| <= MaxHashtags
    requires i < |e.hashtags| && !ValidTag(e.hashtags[i])
    requires forall k :: 0 <= k < i ==> ValidTag(e.hashtags[k])
    ensures Validate(e) == Fail(ValueError(TagError(e.hashtags[i])))
  {
    TagFieldFirstBad(e.hashtags, i);
  }

  lemma TagFieldFirstBad(tags: seq<string>, i: nat)
    requires 1 <= |tags| <= MaxHashtags
    requires i < |tags| && !ValidTag(tags[i])
    requires forall k :: 0 <= k < i ==> ValidTag(tags[k])
    ensures TagField(TagList(tags)) == Failure(ValueError(TagError(tags[i])))
  {
    CheckTagsFirstFailure(TagList(tags).items, i);
  }

  /** The dictionary keys, in the order `to_dict` writes and `from_dict` reads them. */
  const FieldNames: seq<string> := ["short_caption", "long_description", "hashtags", "cta"]

  /** `to_dict()`. */
  function ToDict(e: CaptionEntity): (d: Json)
    ensures d.JObject? && Keys(d.fields) == FieldNames
    ensures forall i :: 0 <= i < |FieldNames| ==> d.fields[i].0 == FieldNames[i]
  {
    JObject([
      ("short_caption", JString(e.shortCaption)),
      ("long_description", JString(e.longDescription)),
      ("hashtags", TagList(e.hashtags)),
      ("cta", JString(e.cta))])
  }

  /** `data[key]`: the value, or KeyError. */
  function Field(fields: seq<(string, Json)>, key: string): (r: Result<Json, Raised>)
    ensures r.Failure? <==> key !in Keys(fields)
    ensures r.Failure? ==> r.error == KeyError(key)
    ensures r.Success? ==> Get(fields, key) == Some(r.value)
  {
    match Get(fields, key)
    case Some(v) => Success(v)
    case None => Failure(KeyError(key))
  }

  /** The TypeError Python raises for `data["short_caption"]` on a value that is not a dict. */
  function NotSubscriptable(data: Json): string {
    match data
    case JArray(_) => "list indices must be integers or slices, not str"
    case JString(_) => "string indices must be integers, not 'str'"
    case _ => "'" + TypeName(data) + "' object is not subscriptable"
  }

  /** The dictionary holds all four keys, in any order and among any others. */
  predicate HasFields(fields: seq<(string, Json)>) {
    && "short_caption" in Keys(fields)
    && "long_description" in Keys(fields)
    && "hashtags" in Keys(fields)
    && "cta" in Keys(fields)
  }

  /**
    `CaptionEntity.from_dict(data)`: reads the four keys in order (a missing
    key raises KeyError) and constructs, hence validates, the entity.
   */
  function FromDict(data: Json): (r: Result<CaptionEntity, Raised>)
    ensures r.Success? ==> Valid(r.value)
    ensures !data.JObject? ==> r.Failure? && r.error.TypeError?
    ensures r.Success? ==>
      && data.JObject?
      && Get(data.fields, "short_caption") == Some(JString(r.value.shortCaption))
      && Get(data.fields, "long_description") == Some(JString(r.value.longDescription))
      && Get(data.fields, "cta") == Some(JString(r.value.cta))
      && Get(data.fields, "hashtags").Some?
      && TagsOf(Get(data.fields, "hashtags").value, r.value.hashtags)
    ensures data.JObject? && HasFields(data.fields) ==>
      r == Construct(Get(data.fields, "short_caption").value, Get(data.fields, "long_description").value,
                     Get(data.fields, "hashtags").value, Get(data.fields, "cta").value)
    ensures r.Failure? ==> DataError(r.error)
  {
    match data
    case JObject(fs) =>
      var short :- Field(fs, "short_caption");
      var long :- Field(fs, "long_description");
      var tags :- Field(fs, "hashtags");
      var cta :- Field(fs, "cta");
      Construct(short, long, tags, cta)
    case _ => Failure(TypeError(NotSubscriptable(data)))
  }

  /** `from_dict(to_dict(e))` gives back every valid entity. */
  lemma FromDictToDict(e: CaptionEntity)
    requires Valid(e)
    ensures FromDict(ToDict(e)) == Success(e)
  {
    ToDictGet(e);
    ConstructOfEntity(e);
  }

  /**
    Any dictionary whose four keys hold an entity's fields, whatever their
    order and whatever other keys it has, is read as that entity when it is
    valid, and otherwise fails with the error `validate()` raises for it.
   */
  lemma FromDictOfFields(fs: seq<(string, Json)>, e: CaptionEntity)
    requires Get(fs, "short_caption") == Some(JString(e.shortCaption))
    requires Get(fs, "long_description") == Some(JString(e.longDescription))
    requires Get(fs, "hashtags") == Some(TagList(e.hashtags))
    requires Get(fs, "cta") == Some(JString(e.cta))
    ensures FromDict(JObject(fs)) == if Valid(e) then Success(e) else Failure(Validate(e).error)
  {
    ConstructOfEntity(e);
  }

  /** Each key of `to_dict()` holds its field. */
  lemma ToDictGet(e: CaptionEntity)
    ensures Get(ToDict(e).fields, "short_caption") == Some(JString(e.shortCaption))
    ensures Get(ToDict(e).fields, "long_description") == Some(JString(e.longDescription))
    ensures Get(ToDict(e).fields, "hashtags") == Some(TagList(e.hashtags))
    ensures Get(ToDict(e).fields, "cta") == Some(JString(e.cta))
  {
    ToDictGetAt(e, 0);
    ToDictGetAt(e, 1);
    ToDictGetAt(e, 2);
    ToDictGetAt(e, 3);
  }

  lemma ToDictGetAt(e: CaptionEntity, i: nat)
    requires i < |FieldNames|
    ensures Get(ToDict(e).fields, FieldNames[i]) == Some(ToDict(e).fields[i].1)
  {
    var fs := ToDict(e).fields;
    forall k | 0 <= k < |FieldNames| && k != i
      ensures fs[k].0 != FieldNames[i]
    {
      assert |fs[k].0| != |FieldNames[i]|;
    }
    GetAt(fs, FieldNames[i], i);
  }

  /** A dict missing one of the four keys fails with KeyError naming the first missing key. */
  lemma FromDictMissingKey(data: Json, i: nat)
    requires data.JObject? && i < |FieldNames|
    requires FieldNames[i] !in Keys(data.fields)
    requires forall k :: 0 <= k < i ==> FieldNames[k] in Keys(data.fields)
    ensures FromDict(data) == Failure(KeyError(FieldNames[i]))
  {
    var fs := data.fields;
    assert FieldNames[0] == "short_caption" && FieldNames[1] == "long_description";
    assert FieldNames[2] == "hashtags" && FieldNames[3] == "cta";
    assert Field(fs, FieldNames[i]) == Failure(KeyError(FieldNames[i]));
  }
}
