/**
 * The `petstore_pet` resource: how a Terraform plan becomes an API payload,
 * how an API answer is mapped back into resource state, which fields an
 * update sends, and the Configure/Create/Read/Update handlers built on them.
 *
 * The generated client is not called: each handler takes the call's result as
 * an input and reports the request it sends as `calls`. A nil pointer
 * dereference in Go is the outcome `Panicked`; on a nil client that happens
 * before any request is sent, so `calls` is then empty.
 */
module Resource {
  import opened Framework
  import opened PetstoreApi
  import Strconv
  import opened Messages

  datatype CategoryModel = CategoryModel(id: Int64Value, name: StringValue)

  datatype TagModel = TagModel(id: Int64Value, name: StringValue)

  /** PetResourceModel: the resource's plan or state. */
  datatype PetResourceModel = PetResourceModel(
    id: StringValue,
    name: StringValue,
    status: StringValue,
    category: Option<CategoryModel>,
    tags: Option<seq<TagModel>>)

  /** What a handler leaves in its response: the diagnostics, and the state it
      wrote with State.Set (None when it did not write one). */
  datatype Response = Response(diagnostics: seq<Diagnostic>, state: Option<PetResourceModel>)

  /** req.ProviderData as Configure receives it: nil, a *ClientWithResponses
      (which may itself be a nil pointer), or a value of some other Go type. */
  datatype ProviderData = NoProviderData | ClientData(client: Option<Client>) | OtherData(goType: string)

  /** The value rand.Int63n(1000) can draw. */
  type Draw = x: Int64 | 0 <= x < 1000

  // ---------------------------------------------------------------------------
  // Plan -> API payload (Create)
  // ---------------------------------------------------------------------------

  /** One plan tag in the payload: a field is sent exactly when it is not null. */
  function EncodeTag(t: TagModel): Tag {
    Tag(if t.id.IsNull() then None else Some(t.id.ValueInt64()),
        if t.name.IsNull() then None else Some(t.name.ValueString()))
  }

  function EncodeTags(ts: seq<TagModel>): seq<Tag> {
    seq(|ts|, i requires 0 <= i < |ts| => EncodeTag(ts[i]))
  }

  /** The category the payload starts with: the pointers of an unknown Int64 and
      an unknown String, that is 0 and "". */
  function PlaceholderCategory(): Category {
    Category(UnknownInt64.ValueInt64Pointer(), UnknownString.ValueStringPointer())
  }

  /** The payload Create sends for `plan` when the random draw is `draw`. */
  function Payload(plan: PetResourceModel, draw: Draw): (p: Pet)
    ensures p.id == Some(draw) && 0 <= p.id.value < 1000
    ensures p.name == plan.name.ValueString()
    ensures p.category.Some?
    ensures p.category.value.id ==
              if plan.category.Some? && !plan.category.value.id.IsNull()
              then Some(plan.category.value.id.ValueInt64()) else Some(0)
    ensures p.category.value.name ==
              if plan.category.Some? && !plan.category.value.name.IsNull()
              then Some(plan.category.value.name.ValueString()) else Some("")
    ensures p.status.Some? <==> !plan.status.IsNull()
    ensures p.status.Some? ==> p.status.value == plan.status.ValueString()
    ensures p.tags.Some?
    ensures plan.tags.None? ==> p.tags.value == []
    ensures plan.tags.Some? ==> |p.tags.value| == |plan.tags.value|
    ensures plan.tags.Some? ==> forall i :: 0 <= i < |plan.tags.value| ==>
              && (p.tags.value[i].id.Some? <==> !plan.tags.value[i].id.IsNull())
              && (p.tags.value[i].name.Some? <==> !plan.tags.value[i].name.IsNull())
              && (p.tags.value[i].id.Some? ==> p.tags.value[i].id.value == plan.tags.value[i].id.ValueInt64())
              && (p.tags.value[i].name.Some? ==> p.tags.value[i].name.value == plan.tags.value[i].name.ValueString())
  {
    var init := PlaceholderCategory();
    var category :=
      match plan.category
      case None => init
      case Some(c) =>
        Category(if c.id.IsNull() then init.id else Some(c.id.ValueInt64()),
                 if c.name.IsNull() then init.name else Some(c.name.ValueString()));
    Pet(Some(draw), plan.name.ValueString(), Some(category),
        Some(if plan.tags.Some? then EncodeTags(plan.tags.value) else []),
        if plan.status.IsNull() then None else Some(plan.status.ValueString()))
  }

  /** Builds the Create payload field by field, appending the tags one at a time. */
  method BuildPayload(plan: PetResourceModel, draw: Draw) returns (params: Pet)
    ensures params == Payload(plan, draw)
  {
    params := Pet(UnknownInt64.ValueInt64Pointer(), plan.name.ValueString(),
                  Some(PlaceholderCategory()), Some([]), None);

    if plan.category.Some? {
      var c := plan.category.value;
      if !c.id.IsNull() {
        var tmpId := c.id.ValueInt64();
        params := params.(category := Some(params.category.value.(id := Some(tmpId))));
      }
      if !c.name.IsNull() {
        var tmpName := c.name.ValueString();
        params := params.(category := Some(params.category.value.(name := Some(tmpName))));
      }
    }

    if plan.tags.Some? && |plan.tags.value| > 0 {
      var ts := plan.tags.value;
      ghost var before := params;
      assert EncodeTags(ts[..0]) == [];
      for i := 0 to |ts|
        invariant params == before.(tags := Some(EncodeTags(ts[..i])))
      {
        var tag := ts[i];
        var tmp := Tag(None, None);
        if !tag.id.IsNull() {
          var tmpId := tag.id.ValueInt64();
          tmp := tmp.(id := Some(tmpId));
        }
        if !tag.name.IsNull() {
          var tmpName := tag.name.ValueString();
          tmp := tmp.(name := Some(tmpName));
        }
        assert EncodeTags(ts[..i + 1]) == EncodeTags(ts[..i]) + [tmp];
        params := params.(tags := Some(params.tags.value + [tmp]));
      }
      assert ts[..|ts|] == ts;
    }

    if !plan.status.IsNull() {
      var tmp := plan.status.ValueString();
      params := params.(status := Some(tmp));
    }

    var tmpId := draw;
    params := params.(id := Some(tmpId));
  }

  // ---------------------------------------------------------------------------
  // API answer -> resource state (Create, Read, Update)
  // ---------------------------------------------------------------------------

  predicate TagDereferenceable(t: Tag) {
    t.id.Some? && t.name.Some?
  }

  /** The mapping dereferences the id, the category's id and name when there is
      a category, and every tag's id and name; it panics unless all are set. */
  predicate Dereferenceable(pet: Pet) {
    && pet.id.Some?
    && (pet.category.Some? ==> pet.category.value.id.Some? && pet.category.value.name.Some?)
    && (pet.tags.Some? ==> forall i :: 0 <= i < |pet.tags.value| ==> TagDereferenceable(pet.tags.value[i]))
  }

  function DecodeTag(t: Tag): TagModel
    requires TagDereferenceable(t)
  {
    TagModel(KnownInt64(t.id.value), KnownString(t.name.value))
  }

  function DecodeTags(ts: seq<Tag>): seq<TagModel>
    requires forall i :: 0 <= i < |ts| ==> TagDereferenceable(ts[i])
  {
    seq(|ts|, i requires 0 <= i < |ts| => DecodeTag(ts[i]))
  }

  predicate IsPetStatus(s: string) {
    s == "available" || s == "pending" || s == "sold"
  }

  /** The three-way switch on the response status: each enum value becomes the
      string of the same spelling; anything else has no case. */
  function DecodeStatus(s: string): (r: Option<string>)
    ensures r.Some? <==> IsPetStatus(s)
    ensures r.Some? ==> r.value == s
  {
    if s == PetStatusAvailable then Some("available")
    else if s == PetStatusPending then Some("pending")
    else if s == PetStatusSold then Some("sold")
    else None
  }

  /** The state after the mapping of `pet` onto `model` (name aside). The name
      is kept, the id is always rewritten, and every field the mapping changes
      holds known values only; a changed status is one of the enum values. */
  function Refreshed(model: PetResourceModel, pet: Pet): (r: PetResourceModel)
    requires Dereferenceable(pet)
    ensures r.name == model.name
    ensures r.id.KnownString? && |r.id.s| >= 1
    ensures r.category != model.category ==>
              r.category.Some? && r.category.value.id.KnownInt64? && r.category.value.name.KnownString?
    ensures r.tags != model.tags ==>
              r.tags.Some? && forall i :: 0 <= i < |r.tags.value| ==>
                r.tags.value[i].id.KnownInt64? && r.tags.value[i].name.KnownString?
    ensures r.status != model.status ==> r.status.KnownString? && IsPetStatus(r.status.s)
  {
    var status :=
      if pet.status.Some? && DecodeStatus(pet.status.value).Some?
      then KnownString(DecodeStatus(pet.status.value).value) else model.status;
    var category :=
      if pet.category.Some?
      then Some(CategoryModel(KnownInt64(pet.category.value.id.value), KnownString(pet.category.value.name.value)))
      else model.category;
    var tags :=
      if pet.tags.Some? && |pet.tags.value| > 0 then Some(DecodeTags(pet.tags.value)) else model.tags;
    PetResourceModel(KnownString(Strconv.FormatInt(pet.id.value)), model.name, status, category, tags)
  }

  /** Read and Update first take the name from the answer; Create keeps the plan's. */
  function WithName(model: PetResourceModel, takeName: bool, pet: Pet): PetResourceModel {
    if takeName then model.(name := KnownString(pet.name)) else model
  }

  /** Fills a fresh array with one state tag per answer tag, in order. */
  method MapTags(tags: seq<Tag>) returns (r: Option<seq<TagModel>>)
    ensures r.Some? <==> forall i :: 0 <= i < |tags| ==> TagDereferenceable(tags[i])
    ensures r.Some? ==> r.value == DecodeTags(tags)
  {
    var tmp := new TagModel[|tags|];
    for i := 0 to |tags|
      invariant forall k :: 0 <= k < i ==> TagDereferenceable(tags[k]) && tmp[k] == DecodeTag(tags[k])
    {
      var tag := tags[i];
      if tag.id.None? || tag.name.None? {
        // *tag.Id or *tag.Name on a nil pointer
        return None;
      }
      tmp[i] := TagModel(KnownInt64(tag.id.value), KnownString(tag.name.value));
    }
    r := Some(tmp[..]);
  }

  /** Overwrites the fields of `model` from the answer, step by step; None is a panic. */
  method MapResponse(model: PetResourceModel, pet: Pet) returns (r: Option<PetResourceModel>)
    ensures r.Some? <==> Dereferenceable(pet)
    ensures r.Some? ==> r.value == Refreshed(model, pet)
  {
    var data := model;
    if pet.id.None? {
      return None;
    }
    data := data.(id := KnownString(Strconv.FormatInt(pet.id.value)));

    if pet.category.Some? {
      var c := pet.category.value;
      if c.id.None? || c.name.None? {
        return None;
      }
      data := data.(category := Some(CategoryModel(KnownInt64(c.id.value), KnownString(c.name.value))));
    }

    if pet.tags.Some? && |pet.tags.value| > 0 {
      var tmp := MapTags(pet.tags.value);
      if tmp.None? {
        return None;
      }
      data := data.(tags := tmp);
    }

    if pet.status.Some? {
      var decoded := DecodeStatus(pet.status.value);
      if decoded.Some? {
        data := data.(status := KnownString(decoded.value));
      }
    }
    r := Some(data);
  }

  /** What the mapping promises about the state it produces. */
  lemma RefreshedContract(model: PetResourceModel, pet: Pet)
    requires Dereferenceable(pet)
    ensures var m := Refreshed(model, pet);
      && m.id == KnownString(Strconv.FormatInt(pet.id.value))
      && Strconv.ParseInt(m.id.ValueString()) == pet.id.value
      && m.name == model.name
      && (pet.category.None? ==> m.category == model.category)
      && (pet.category.Some? ==> m.category == Some(CategoryModel(KnownInt64(pet.category.value.id.value),
                                                               KnownString(pet.category.value.name.value))))
      && (pet.tags.None? || pet.tags.value == [] ==> m.tags == model.tags)
      && (pet.tags.Some? && pet.tags.value != [] ==>
            && m.tags.Some? && |m.tags.value| == |pet.tags.value|
            && forall i :: 0 <= i < |pet.tags.value| ==>
                 m.tags.value[i] == TagModel(KnownInt64(pet.tags.value[i].id.value), KnownString(pet.tags.value[i].name.value)))
      && (pet.status.Some? && IsPetStatus(pet.status.value) ==> m.status == KnownString(pet.status.value))
      && (pet.status.None? || !IsPetStatus(pet.status.value) ==> m.status == model.status)
  {
    Strconv.ParseFormatInt(pet.id.value);
  }

  /** A plan whose category and tags hold only known values. */
  predicate FullyKnown(plan: PetResourceModel) {
    && plan.category.Some?
    && plan.category.value.id.KnownInt64?
    && plan.category.value.name.KnownString?
    && (plan.tags.Some? ==> forall i :: 0 <= i < |plan.tags.value| ==>
          plan.tags.value[i].id.KnownInt64? && plan.tags.value[i].name.KnownString?)
  }

  /** When the server answers Create with the payload it was sent, under an id
      of its own, the stored state is the plan with that id: the mapping undoes
      the encoding. This holds for every status, since an unrecognised one
      leaves the plan's value in place. */
  lemma CreateEchoRoundTrip(plan: PetResourceModel, draw: Draw, serverId: Int64)
    requires FullyKnown(plan)
    ensures var answer := Payload(plan, draw).(id := Some(serverId));
      && Dereferenceable(answer)
      && Refreshed(plan, answer) == plan.(id := KnownString(Strconv.FormatInt(serverId)))
  {
    var answer := Payload(plan, draw).(id := Some(serverId));
    if plan.tags.Some? && |plan.tags.value| > 0 {
      var ts := plan.tags.value;
      var sent := answer.tags.value;
      assert forall i :: 0 <= i < |sent| ==> TagDereferenceable(sent[i]);
      var back := DecodeTags(sent);
      assert |back| == |ts|;
      forall i | 0 <= i < |ts| ensures back[i] == ts[i] {
        assert sent[i] == EncodeTag(ts[i]);
      }
      assert back == ts;
    }
    var m := Refreshed(plan, answer);
    if plan.status.KnownString? && IsPetStatus(plan.status.s) {
      assert m.status == plan.status;
    }
  }

  /** A Read right after Create, answered with the same pet, leaves the state
      as it is when the server kept the planned name: no spurious change. */
  lemma ReadAfterCreateIsStable(plan: PetResourceModel, pet: Pet)
    requires Dereferenceable(pet) && plan.name == KnownString(pet.name)
    ensures var created := Refreshed(plan, pet);
      Refreshed(WithName(created, true, pet), pet) == created
  {
  }

  // ---------------------------------------------------------------------------
  // Update parameters
  // ---------------------------------------------------------------------------

  /** The form parameters Update sends: the plan's name when it is not null
      and differs from the state's; status is never set. */
  function UpdateParamsFor(plan: PetResourceModel, state: PetResourceModel): (p: UpdatePetWithFormParams)
    ensures p.name.Some? <==> !plan.name.IsNull() && plan.name != state.name
    ensures p.name.Some? ==> p.name.value == plan.name.ValueString()
    ensures p.status.None?
  {
    UpdatePetWithFormParams(
      if !plan.name.IsNull() && plan.name != state.name then plan.name.ValueStringPointer() else None,
      None)
  }

  predicate NoUpdateParams(p: UpdatePetWithFormParams) {
    p.name.None? && p.status.None?
  }

  // ---------------------------------------------------------------------------
  // After the client call
  // ---------------------------------------------------------------------------

  /** The id Read and Update query: the stored id parsed in base 10, its error ignored. */
  function PetIdOf(state: PetResourceModel): (petId: Int64)
    ensures !state.id.KnownString? ==> petId == 0
    ensures petId < 0 ==> state.id.KnownString? && |state.id.s| >= 2 && state.id.s[0] == '-'
  {
    Strconv.ParseInt(state.id.ValueString())
  }

  /** How Create ("create"), Read ("read") and Update ("update") finish once the
      client has answered: an error diagnostic and no state for a transport
      error or a missing 200 body, a panic for an answer with nil fields the
      mapping dereferences, and otherwise the mapped state. */
  function AfterCall(diags: seq<Diagnostic>, verb: string, model: PetResourceModel, takeName: bool,
                     result: ApiResult): (o: Outcome<Response>)
    ensures o.Panicked? <==>
              result.HttpResponse? && result.json200.Some? && !Dereferenceable(result.json200.value)
    ensures o.Returned? ==> |o.value.diagnostics| >= |diags| && o.value.diagnostics[..|diags|] == diags
    ensures o.Returned? ==> (o.value.state.Some? <==> o.value.diagnostics == diags)
  {
    match result
    case ClientFailure(err) =>
      Returned(Response(diags + [ErrorDiagnostic("Client Error", CallFailed(verb, err))], None))
    case HttpResponse(code, body) =>
      match body
      case None =>
        Returned(Response(diags + [ErrorDiagnostic("Server Error", BadStatus(verb, Strconv.FormatInt(code)))],
                          None))
      case Some(pet) =>
        if Dereferenceable(pet) then Returned(Response(diags, Some(Refreshed(WithName(model, takeName, pet), pet))))
        else Panicked
  }

  /** Without a 200 body nothing is stored, and exactly one error is added. */
  lemma FailedCallWritesNoState(diags: seq<Diagnostic>, verb: string, model: PetResourceModel, takeName: bool,
                                result: ApiResult)
    requires result.ClientFailure? || result.json200.None?
    ensures var o := AfterCall(diags, verb, model, takeName, result);
      && o.Returned? && o.value.state.None?
      && |o.value.diagnostics| == |diags| + 1 && o.value.diagnostics[..|diags|] == diags
      && o.value.diagnostics[|diags|].severity == Error
      && HasError(o.value.diagnostics)
  {
  }

  /** On a 200 answer the handler stores the mapped state, with the name taken
      from the answer by Read and Update and kept from the plan by Create, and
      with an id that reads back: the next Read or Update queries exactly the id
      the server returned. */
  lemma StoredStateOnSuccess(diags: seq<Diagnostic>, verb: string, model: PetResourceModel, takeName: bool,
                             result: ApiResult)
    requires result.HttpResponse? && result.json200.Some? && Dereferenceable(result.json200.value)
    ensures var o := AfterCall(diags, verb, model, takeName, result);
      && o.Returned? && o.value.diagnostics == diags && o.value.state.Some?
      && o.value.state.value.name == (if takeName then KnownString(result.json200.value.name) else model.name)
      && PetIdOf(o.value.state.value) == result.json200.value.id.value
  {
    Strconv.ParseFormatInt(result.json200.value.id.value);
  }

  /** The common tail of the three handlers, written as they are: append a
      diagnostic and return, or overwrite the model from the answer. */
  method FinishCall(diags: seq<Diagnostic>, verb: string, model: PetResourceModel, takeName: bool,
                    result: ApiResult) returns (out: Outcome<Response>)
    ensures out == AfterCall(diags, verb, model, takeName, result)
  {
    if result.ClientFailure? {
      var d := diags + [ErrorDiagnostic("Client Error", CallFailed(verb, result.err))];
      return Returned(Response(d, None));
    }
    if result.json200.None? {
      var d := diags + [ErrorDiagnostic("Server Error", BadStatus(verb, Strconv.FormatInt(result.statusCode)))];
      return Returned(Response(d, None));
    }
    var pet := result.json200.value;
    var data := model;
    if takeName {
      data := data.(name := KnownString(pet.name));
    }
    var mapped := MapResponse(data, pet);
    if mapped.None? {
      return Panicked;
    }
    out := Returned(Response(diags, mapped));
  }

  // ---------------------------------------------------------------------------
  // The resource
  // ---------------------------------------------------------------------------

  class PetResource {
    var client: Option<Client>

    /** NewPetResource: a resource without a client. */
    constructor ()
      ensures client == None
    {
      client := None;
    }

    /** Takes the client the provider published: nothing happens without
        provider data, a value of another type is reported and ignored. */
    method Configure(data: ProviderData) returns (diagnostics: seq<Diagnostic>)
      modifies this
      ensures data.NoProviderData? ==> diagnostics == [] && client == old(client)
      ensures data.OtherData? ==>
                && diagnostics == [ErrorDiagnostic("Unexpected Resource Configure Type", WrongProviderDataType(data.goType))]
                && client == old(client)
      ensures data.ClientData? ==> diagnostics == [] && client == data.client
    {
      diagnostics := [];
      if data.NoProviderData? {
        return;
      }
      if !data.ClientData? {
        diagnostics := diagnostics + [ErrorDiagnostic("Unexpected Resource Configure Type", WrongProviderDataType(data.goType))];
        return;
      }
      client := data.client;
    }

    /** Create: `planDiags` are the diagnostics of reading the plan, `draw` the
        random id and `result` what AddPetWithResponse reports. */
    method Create(planDiags: seq<Diagnostic>, plan: PetResourceModel, draw: Draw, result: ApiResult)
      returns (calls: seq<ApiCall>, out: Outcome<Response>)
      ensures HasError(planDiags) ==> calls == [] && out == Returned(Response(planDiags, None))
      ensures !HasError(planDiags) && client.None? ==> calls == [] && out == Panicked
      ensures !HasError(planDiags) && client.Some? ==> calls == [AddPet(Payload(plan, draw))]
      ensures !HasError(planDiags) && client.Some? ==> out == AfterCall(planDiags, "create", plan, false, result)
      ensures !HasError(planDiags) && client.Some? && (result.ClientFailure? || result.json200.None?) ==>
                out.Returned? && out.value.state.None? && HasError(out.value.diagnostics)
    {
      calls := [];
      var diags := planDiags;
      if HasError(diags) {
        return calls, Returned(Response(diags, None));
      }
      var params := BuildPayload(plan, draw);
      if client.None? {
        // AddPetWithResponse on a nil client panics before any request is sent
        return calls, Panicked;
      }
      calls := calls + [AddPet(params)];
      out := FinishCall(diags, "create", plan, false, result);
      if result.ClientFailure? || result.json200.None? {
        FailedCallWritesNoState(diags, "create", plan, false, result);
      }
    }

    /** Read: `stateDiags` are the diagnostics of reading the prior state and
        `result` what GetPetByIdWithResponse reports. */
    method Read(stateDiags: seq<Diagnostic>, prior: PetResourceModel, result: ApiResult)
      returns (calls: seq<ApiCall>, out: Outcome<Response>)
      ensures HasError(stateDiags) ==> calls == [] && out == Returned(Response(stateDiags, None))
      ensures !HasError(stateDiags) && client.None? ==> calls == [] && out == Panicked
      ensures !HasError(stateDiags) && client.Some? ==> calls == [GetPetById(PetIdOf(prior))]
      ensures !HasError(stateDiags) && client.Some? ==> out == AfterCall(stateDiags, "read", prior, true, result)
      ensures !HasError(stateDiags) && client.Some? && (result.ClientFailure? || result.json200.None?) ==>
                out.Returned? && out.value.state.None? && HasError(out.value.diagnostics)
    {
      calls := [];
      var diags := stateDiags;
      if HasError(diags) {
        return calls, Returned(Response(diags, None));
      }
      var petId := Strconv.ParseInt(prior.id.ValueString());
      if client.None? {
        return calls, Panicked;
      }
      calls := calls + [GetPetById(petId)];
      out := FinishCall(diags, "read", prior, true, result);
      if result.ClientFailure? || result.json200.None? {
        FailedCallWritesNoState(diags, "read", prior, true, result);
      }
    }

    /** Update: the plan and prior-state diagnostics, the two models, and what
        UpdatePetWithFormWithResponse reports. The answer is mapped onto the
        prior state. */
    method Update(planDiags: seq<Diagnostic>, stateDiags: seq<Diagnostic>, plan: PetResourceModel,
                  state: PetResourceModel, result: ApiResult)
      returns (calls: seq<ApiCall>, out: Outcome<Response>)
      ensures HasError(planDiags + stateDiags) ==> calls == [] && out == Returned(Response(planDiags + stateDiags, None))
      ensures !HasError(planDiags + stateDiags) && NoUpdateParams(UpdateParamsFor(plan, state)) ==>
                calls == [] && out == Returned(Response(planDiags + stateDiags, None))
      ensures !HasError(planDiags + stateDiags) && !NoUpdateParams(UpdateParamsFor(plan, state)) && client.None? ==>
                calls == [] && out == Panicked
      ensures !HasError(planDiags + stateDiags) && !NoUpdateParams(UpdateParamsFor(plan, state)) && client.Some? ==>
                calls == [UpdatePetWithForm(PetIdOf(state), UpdateParamsFor(plan, state))]
      ensures !HasError(planDiags + stateDiags) && !NoUpdateParams(UpdateParamsFor(plan, state)) && client.Some? ==>
                out == AfterCall(planDiags + stateDiags, "update", state, true, result)
      ensures !HasError(planDiags + stateDiags) && !NoUpdateParams(UpdateParamsFor(plan, state)) && client.Some?
              && (result.ClientFailure? || result.json200.None?) ==>
                out.Returned? && out.value.state.None? && HasError(out.value.diagnostics)
    {
      calls := [];
      var diags := planDiags + stateDiags;
      if HasError(diags) {
        return calls, Returned(Response(diags, None));
      }

      var params := UpdatePetWithFormParams(None, None);
      if !plan.name.IsNull() && plan.name != state.name {
        params := params.(name := plan.name.ValueStringPointer());
      }
      // Only the name is compared; the status is never put into the parameters,
      // so the branch that adds the state's name for a status-only change never runs.
      if params.name.None? && params.status.Some? {
        params := params.(name := state.name.ValueStringPointer());
      }
      if params.name.None? && params.status.None? {
        return calls, Returned(Response(diags, None));
      }

      var petId := Strconv.ParseInt(state.id.ValueString());
      if client.None? {
        return calls, Panicked;
      }
      calls := calls + [UpdatePetWithForm(petId, params)];
      out := FinishCall(diags, "update", state, true, result);
      if result.ClientFailure? || result.json200.None? {
        FailedCallWritesNoState(diags, "update", state, true, result);
      }
    }
  }
}
