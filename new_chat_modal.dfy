/**
 * The modal for starting a new chat: the trainer list is read out of
 * whichever response shape the server sends, and a failed load leaves an
 * empty list with a message.
 */
module NewChatModal {
  import opened Common
  import opened Json

  const DefaultLoadError := "Error loading trainers"

  /** `Array.isArray(v)` together with the elements of the array it found. */
  function ArrayItems(v: Option<Json>): seq<Json>
  {
    if v.Some? && v.value.JArr? then v.value.items else []
  }

  /**
   * `normalizeArrayResp`: nothing for a falsy value; an array as it is;
   * otherwise the first of the properties `data`, `value` and `result` that
   * is an array; otherwise nothing.
   */
  function NormalizeArrayResp(data: Option<Json>): (r: seq<Json>)
    ensures !TruthyOpt(data) ==> r == []
    ensures IsArray(data) ==> r == data.value.items
    ensures TruthyOpt(data) && !IsArray(data) && IsArray(Prop(data, "data")) ==>
      r == Prop(data, "data").value.items
    ensures TruthyOpt(data) && !IsArray(data) && !IsArray(Prop(data, "data")) && IsArray(Prop(data, "value")) ==>
      r == Prop(data, "value").value.items
    ensures TruthyOpt(data) && !IsArray(data) && !IsArray(Prop(data, "data")) && !IsArray(Prop(data, "value")) ==>
      r == ArrayItems(Prop(data, "result"))
  {
    if !TruthyOpt(data) then []
    else if IsArray(data) then data.value.items
    else if IsArray(Prop(data, "data")) then Prop(data, "data").value.items
    else if IsArray(Prop(data, "value")) then Prop(data, "value").value.items
    else if IsArray(Prop(data, "result")) then Prop(data, "result").value.items
    else []
  }

  /** Whatever comes back is the content of the value itself or of one of the three wrappers: nothing is invented. */
  lemma NormalizeFromCandidates(data: Option<Json>)
    ensures var r := NormalizeArrayResp(data);
      r == [] || r == ArrayItems(data) || r == ArrayItems(Prop(data, "data")) ||
      r == ArrayItems(Prop(data, "value")) || r == ArrayItems(Prop(data, "result"))
  {
  }

  /** An already normalised list normalises to itself. */
  lemma NormalizeIdempotent(data: Option<Json>)
    ensures NormalizeArrayResp(Some(JArr(NormalizeArrayResp(data)))) == NormalizeArrayResp(data)
  {
  }

  /** A list wrapped under any one of the three names is unwrapped, whatever else the object holds under the other two. */
  lemma NormalizeUnwraps(key: string, items: seq<Json>)
    requires key == "data" || key == "value" || key == "result"
    ensures NormalizeArrayResp(Some(JObj(map[key := JArr(items)]))) == items
  {
    var v := Some(JObj(map[key := JArr(items)]));
    assert key != "data" ==> Prop(v, "data").None?;
    assert key != "value" ==> Prop(v, "value").None?;
  }

  /** An object holding lists under several names gives the `data` one. */
  lemma NormalizePrefersData(fields: map<string, Json>)
    requires "data" in fields && fields["data"].JArr?
    ensures NormalizeArrayResp(Some(JObj(fields))) == fields["data"].items
  {
  }

  class NewChatModalState {
    var trainers: seq<Json>
    var isLoading: bool
    var errorMessage: string

    /** `ngOnInit` starts the load at once. */
    constructor ()
      ensures trainers == [] && isLoading && errorMessage == ""
    {
      trainers := [];
      isLoading := true;
      errorMessage := "";
    }

    /** `loadTrainers` starts a (re)load. */
    method LoadTrainers()
      modifies this`isLoading, this`errorMessage
      ensures isLoading && errorMessage == ""
    {
      isLoading := true;
      errorMessage := "";
    }

    method OnTrainersLoaded(res: Option<Json>)
      modifies this`trainers, this`isLoading
      ensures trainers == NormalizeArrayResp(res) && !isLoading
    {
      trainers := NormalizeArrayResp(res);
      isLoading := false;
    }

    /** A failed load: the error's message, or the fixed text when it has none; no trainers. */
    method OnTrainersFailed(message: Option<string>)
      modifies this`trainers, this`isLoading, this`errorMessage
      ensures trainers == [] && !isLoading
      ensures PresentText(message) ==> errorMessage == message.value
      ensures !PresentText(message) ==> errorMessage == DefaultLoadError
      ensures errorMessage != ""
    {
      errorMessage := OrText(message, DefaultLoadError);
      trainers := [];
      isLoading := false;
    }
  }
}
