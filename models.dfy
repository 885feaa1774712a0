/** The pydantic models of models.py: `SlideInfo`, `PresentationStructure`
    and `StructureFeedback`, and the validation pydantic applies when one of
    them is built from keyed data (which is how the structure collaborators'
    structured output becomes a model). A field declared `Field(...)` is
    required; `feedback` is declared `Field(None)` and so defaults to `None`.
    Unknown keys are ignored, as pydantic does by default. */
module Models {

  datatype Option<T> = None | Some(value: T)

  /** One planned slide: a title and the one idea the slide is about. */
  datatype SlideInfo = SlideInfo(title: string, atomicCoreIdea: string)

  /** The ordered plan of slides. */
  datatype PresentationStructure = PresentationStructure(slides: seq<SlideInfo>)

  /** The reviewer's verdict: the `is_perfect` flag and optional free text. */
  datatype StructureFeedback = StructureFeedback(isPerfect: bool, feedback: Option<string>)

  /** Keyed input data as pydantic receives it. */
  datatype Json =
    | JNull
    | JBool(b: bool)
    | JString(str: string)
    | JArray(items: seq<Json>)
    | JObject(fields: map<string, Json>)

  /** Why validation refused its input; `InSlide` locates an error inside
      the `slides` list. */
  datatype FieldError =
    | NotAnObject
    | Missing(field: string)
    | WrongType(field: string)
    | InSlide(index: nat, error: FieldError)

  datatype Result<T> = Ok(value: T) | Err(error: FieldError)

  const TitleKey := "title"
  const IdeaKey := "atomic_core_idea"
  const SlidesKey := "slides"
  const IsPerfectKey := "is_perfect"
  const FeedbackKey := "feedback"

  predicate HasString(fields: map<string, Json>, key: string) {
    key in fields && fields[key].JString?
  }

  predicate HasBool(fields: map<string, Json>, key: string) {
    key in fields && fields[key].JBool?
  }

  /** The error pydantic reports first for a required field of the wrong or no value. */
  function FieldFault(fields: map<string, Json>, key: string): FieldError {
    if key in fields then WrongType(key) else Missing(key)
  }

  /** Builds a `SlideInfo`; both fields are required strings. */
  function ParseSlideInfo(j: Json): (r: Result<SlideInfo>)
    ensures r.Ok? <==> j.JObject? && HasString(j.fields, TitleKey) && HasString(j.fields, IdeaKey)
    ensures r.Ok? ==> r.value == SlideInfo(j.fields[TitleKey].str, j.fields[IdeaKey].str)
    ensures j.JObject? && TitleKey !in j.fields ==> r == Err(Missing(TitleKey))
    ensures j.JObject? && HasString(j.fields, TitleKey) && IdeaKey !in j.fields ==> r == Err(Missing(IdeaKey))
  {
    match j
    case JObject(fields) =>
      if !HasString(fields, TitleKey) then Err(FieldFault(fields, TitleKey))
      else if !HasString(fields, IdeaKey) then Err(FieldFault(fields, IdeaKey))
      else Ok(SlideInfo(fields[TitleKey].str, fields[IdeaKey].str))
    case _ => Err(NotAnObject)
  }

  /** Builds the elements of a `List[SlideInfo]`, in order; the first
      refused element refuses the list. */
  function ParseSlides(items: seq<Json>): (r: Result<seq<SlideInfo>>)
    ensures r.Ok? <==> forall i :: 0 <= i < |items| ==> ParseSlideInfo(items[i]).Ok?
    ensures r.Ok? ==> |r.value| == |items|
    ensures r.Ok? ==> forall i :: 0 <= i < |items| ==> r.value[i] == ParseSlideInfo(items[i]).value
    ensures r.Err? ==> r.error.InSlide? && r.error.index < |items|
  {
    if |items| == 0 then Ok([])
    else
      match ParseSlideInfo(items[0])
      case Err(e) => Err(InSlide(0, e))
      case Ok(first) => (
        match ParseSlides(items[1..])
        case Err(e) => Err(InSlide(e.index + 1, e.error))
        case Ok(rest) => Ok([first] + rest))
  }

  /** Builds a `PresentationStructure`; the `slides` list is required. */
  function ParseStructure(j: Json): (r: Result<PresentationStructure>)
    ensures r.Ok? <==> j.JObject? && SlidesKey in j.fields && j.fields[SlidesKey].JArray?
                       && ParseSlides(j.fields[SlidesKey].items).Ok?
    ensures r.Ok? ==> |r.value.slides| == |j.fields[SlidesKey].items|
    ensures r.Ok? ==> forall i :: 0 <= i < |r.value.slides| ==>
                        r.value.slides[i] == ParseSlideInfo(j.fields[SlidesKey].items[i]).value
    ensures j.JObject? && SlidesKey !in j.fields ==> r == Err(Missing(SlidesKey))
  {
    match j
    case JObject(fields) =>
      if SlidesKey !in fields || !fields[SlidesKey].JArray? then Err(FieldFault(fields, SlidesKey))
      else (
        match ParseSlides(fields[SlidesKey].items)
        case Err(e) => Err(e)
        case Ok(slides) => Ok(PresentationStructure(slides)))
    case _ => Err(NotAnObject)
  }

  /** `feedback: Optional[str] = Field(None)`: absent or null is `None`. */
  function ParseOptionalString(fields: map<string, Json>, key: string): (r: Result<Option<string>>)
    ensures key !in fields ==> r == Ok(None)
    ensures r.Ok? <==> key !in fields || fields[key].JNull? || fields[key].JString?
    ensures r.Ok? && r.value.Some? ==> key in fields && fields[key] == JString(r.value.value)
    ensures key in fields && fields[key].JString? ==> r == Ok(Some(fields[key].str))
    ensures key in fields && fields[key].JNull? ==> r == Ok(None)
  {
    if key !in fields then Ok(None)
    else match fields[key]
      case JNull => Ok(None)
      case JString(s) => Ok(Some(s))
      case _ => Err(WrongType(key))
  }

  /** Builds a `StructureFeedback`; `is_perfect` is a required boolean,
      `feedback` an optional string defaulting to `None`. */
  function ParseFeedback(j: Json): (r: Result<StructureFeedback>)
    ensures r.Ok? <==> j.JObject? && HasBool(j.fields, IsPerfectKey)
                       && ParseOptionalString(j.fields, FeedbackKey).Ok?
    ensures r.Ok? ==> r.value.isPerfect == j.fields[IsPerfectKey].b
    ensures r.Ok? ==> r.value.feedback == ParseOptionalString(j.fields, FeedbackKey).value
    ensures j.JObject? && IsPerfectKey !in j.fields ==> r == Err(Missing(IsPerfectKey))
    ensures j.JObject? && HasBool(j.fields, IsPerfectKey) && FeedbackKey !in j.fields
            ==> r == Ok(StructureFeedback(j.fields[IsPerfectKey].b, None))
  {
    match j
    case JObject(fields) =>
      if !HasBool(fields, IsPerfectKey) then Err(FieldFault(fields, IsPerfectKey))
      else (
        match ParseOptionalString(fields, FeedbackKey)
        case Err(e) => Err(e)
        case Ok(feedback) => Ok(StructureFeedback(fields[IsPerfectKey].b, feedback)))
    case _ => Err(NotAnObject)
  }

  /** pydantic's `model_dump()` of each model. */
  function SlideInfoToJson(s: SlideInfo): Json {
    JObject(map[TitleKey := JString(s.title), IdeaKey := JString(s.atomicCoreIdea)])
  }

  function StructureToJson(p: PresentationStructure): Json {
    JObject(map[SlidesKey := JArray(seq(|p.slides|, i requires 0 <= i < |p.slides| => SlideInfoToJson(p.slides[i])))])
  }

  function FeedbackToJson(f: StructureFeedback): Json {
    JObject(map[IsPerfectKey := JBool(f.isPerfect),
                FeedbackKey := match f.feedback case None => JNull case Some(text) => JString(text)])
  }

  /** Dumping a model and validating the dump gives the model back. */
  lemma SlideInfoRoundTrip(s: SlideInfo)
    ensures ParseSlideInfo(SlideInfoToJson(s)) == Ok(s)
  {
  }

  lemma StructureRoundTrip(p: PresentationStructure)
    ensures ParseStructure(StructureToJson(p)) == Ok(p)
  {
    var items := StructureToJson(p).fields[SlidesKey].items;
    forall i | 0 <= i < |items| ensures ParseSlideInfo(items[i]) == Ok(p.slides[i]) {
      SlideInfoRoundTrip(p.slides[i]);
    }
    assert ParseSlides(items).value == p.slides;
  }

  lemma FeedbackRoundTrip(f: StructureFeedback)
    ensures ParseFeedback(FeedbackToJson(f)) == Ok(f)
  {
  }

  /** Keys other than the declared fields do not change the outcome. */
  lemma SlideInfoIgnoresExtraKeys(fields: map<string, Json>, key: string, v: Json)
    requires key != TitleKey && key != IdeaKey
    ensures ParseSlideInfo(JObject(fields[key := v])) == ParseSlideInfo(JObject(fields))
  {
  }

  lemma FeedbackIgnoresExtraKeys(fields: map<string, Json>, key: string, v: Json)
    requires key != IsPerfectKey && key != FeedbackKey
    ensures ParseFeedback(JObject(fields[key := v])) == ParseFeedback(JObject(fields))
  {
  }
}
