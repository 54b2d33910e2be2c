/**
 * The add/edit resource dialog (components/resource-form.tsx): the regions
 * of each provider, the form's default values, the provider select that
 * resets the region, the tag editor, which spec inputs each type shows and
 * what `onSubmit` sends to the store.
 */
module ResourceForm {
  import opened Wrappers
  import opened Text
  import opened ResourceContext
  import TagEditor

  /** `regions[provider]`. */
  function Regions(p: CloudProvider): (r: seq<string>)
    ensures |r| == 4
  {
    match p
    case Aws => ["us-east-1", "us-west-2", "eu-west-1", "ap-southeast-1"]
    case Gcp => ["us-central1", "us-west1", "europe-west1", "asia-east1"]
    case Azure => ["eastus", "westus", "westeurope", "southeastasia"]
  }

  /** The first region of each provider, and no region belongs to two providers. */
  lemma RegionsShape(p: CloudProvider, q: CloudProvider, region: string)
    ensures Regions(Aws)[0] == "us-east-1" && Regions(Gcp)[0] == "us-central1" && Regions(Azure)[0] == "eastus"
    ensures p != q && region in Regions(p) ==> region !in Regions(q)
  {
  }

  /**
   * A number input read with `valueAsNumber`: missing (never set), `NaN`
   * (left empty) or a number.
   */
  datatype FormNumber = Absent | NaN | Num(v: real)

  function FromOptional(o: Option<real>): FormNumber {
    if o.None? then Absent else Num(o.value)
  }

  /** The dialog's `FormData`. */
  datatype FormValues = FormValues(
    name: string,
    resourceType: ResourceType,
    status: ResourceStatus,
    provider: CloudProvider,
    region: string,
    cpu: FormNumber,
    memory: FormNumber,
    storage: FormNumber,
    cost: real,
    tags: seq<string>)

  /** The values the form is reset to: the edited resource's, or the new-resource defaults. */
  function DefaultValues(resource: Option<Resource>): (v: FormValues)
    ensures resource.None? ==> v == FormValues("", Compute, Active, Aws, Regions(Aws)[0], Absent, Absent, Absent, 0.0, [])
    ensures resource.Some? ==>
      && v.name == resource.value.name && v.resourceType == resource.value.resourceType
      && v.status == resource.value.status && v.provider == resource.value.provider
      && v.region == resource.value.region && v.cost == resource.value.cost && v.tags == resource.value.tags
  {
    match resource
    case None => FormValues("", Compute, Active, Aws, "us-east-1", Absent, Absent, Absent, 0.0, [])
    case Some(r) =>
      FormValues(r.name, r.resourceType, r.status, r.provider, r.region,
                 FromOptional(r.cpu), FromOptional(r.memory), FromOptional(r.storage), r.cost, r.tags)
  }

  /** `value || undefined`: zero, `NaN` and a missing value all become undefined. */
  function OrUndefined(n: FormNumber): (r: Option<real>)
    ensures r.Some? <==> n.Num? && n.v != 0.0
    ensures r.Some? ==> r.value == n.v
  {
    if n.Num? && n.v != 0.0 then Some(n.v) else None
  }

  /** `{ ...data, tags, cpu: data.cpu || undefined, ... }` as the argument of `addResource`. */
  function SubmittedInput(v: FormValues, tags: seq<string>): (r: ResourceInput)
    ensures r.tags == tags
    ensures r.cpu == OrUndefined(v.cpu) && r.memory == OrUndefined(v.memory) && r.storage == OrUndefined(v.storage)
    ensures r.name == v.name && r.resourceType == v.resourceType && r.status == v.status
    ensures r.provider == v.provider && r.region == v.region && r.cost == v.cost
  {
    ResourceInput(v.name, v.resourceType, v.status, v.provider, v.region,
                  OrUndefined(v.cpu), OrUndefined(v.memory), OrUndefined(v.storage), v.cost, tags)
  }

  /** The same object as the patch of `updateResource`: every form key is set, the id and dates are not. */
  function SubmittedPatch(v: FormValues, tags: seq<string>): ResourcePatch {
    var i := SubmittedInput(v, tags);
    ResourcePatch(Keep, Put(i.name), Put(i.resourceType), Put(i.status), Put(i.provider), Put(i.region),
                  Put(i.cpu), Put(i.memory), Put(i.storage), Put(i.cost), Keep, Keep, Put(i.tags))
  }

  /** Editing gives the resource the data a new resource would get, under its own id and creation date. */
  lemma EditAgreesWithAdd(r: Resource, v: FormValues, tags: seq<string>, now: int)
    ensures MergeResource(r, SubmittedPatch(v, tags), now) ==
      NewResource(SubmittedInput(v, tags), r.id, now).(createdAt := r.createdAt)
  {
  }

  /** Submitting an edit form left as it was loaded changes only the update time, unless a spec value is zero. */
  lemma UntouchedEditRoundTrip(r: Resource, now: int)
    requires r.cpu != Some(0.0) && r.memory != Some(0.0) && r.storage != Some(0.0)
    ensures MergeResource(r, SubmittedPatch(DefaultValues(Some(r)), r.tags), now) == r.(updatedAt := now)
  {
  }

  /** A zero spec value is dropped on submit: an untouched edit loses it. */
  lemma ZeroSpecDropped(r: Resource, now: int)
    requires r.cpu == Some(0.0)
    ensures MergeResource(r, SubmittedPatch(DefaultValues(Some(r)), r.tags), now).cpu == None
  {
  }

  /** `["compute", "container"].includes(selectedType)`. */
  predicate ShowCpuMemory(t: ResourceType) {
    t.Tag() in ["compute", "container"]
  }

  /** `["compute", "storage", "database"].includes(selectedType)`. */
  predicate ShowStorage(t: ResourceType) {
    t.Tag() in ["compute", "storage", "database"]
  }

  lemma SpecInputs(t: ResourceType)
    ensures ShowCpuMemory(t) <==> t == Compute || t == Container
    ensures ShowStorage(t) <==> t == Compute || t == Storage || t == Database
    ensures ShowCpuMemory(t) && ShowStorage(t) <==> t == Compute
  {
  }

  /** The dialog's state: the form values, the local tag list and the tag input. */
  class ResourceFormState {
    /** The `resource` prop: the one being edited, or none for a new resource. */
    const editing: Option<Resource>
    var values: FormValues
    var tags: seq<string>
    var tagInput: string

    /** The form as the reset effect leaves it. */
    constructor (resource: Option<Resource>)
      ensures editing == resource && values == DefaultValues(resource)
      ensures tags == (if resource.Some? then resource.value.tags else []) && tagInput == ""
    {
      editing := resource;
      values := DefaultValues(resource);
      tags := if resource.Some? then resource.value.tags else [];
      tagInput := "";
    }

    /** The provider select: the provider and, with it, its first region. */
    method SelectProvider(p: CloudProvider)
      modifies this
      ensures values == old(values).(provider := p, region := Regions(p)[0])
      ensures values.region in Regions(values.provider)
      ensures tags == old(tags) && tagInput == old(tagInput)
    {
      values := values.(provider := p, region := Regions(p)[0]);
    }

    method SelectType(t: ResourceType)
      modifies this
      ensures values == old(values).(resourceType := t)
      ensures tags == old(tags) && tagInput == old(tagInput)
    {
      values := values.(resourceType := t);
    }

    method SetTagInput(text: string)
      modifies this
      ensures tagInput == text && values == old(values) && tags == old(tags)
    {
      tagInput := text;
    }

    /** `addTag`, from the button or the Enter key: the shared tag rule. */
    method AddTag()
      modifies this
      ensures var st := TagEditor.AddTag(TagEditor.TagState(old(tags), old(tagInput)));
        tags == st.tags && tagInput == st.input
      ensures values == old(values)
    {
      var t := Trim(tagInput);
      if t != [] && t !in tags {
        tags := tags + [t];
        tagInput := "";
      }
    }

    /** `removeTag(tag)`: every copy of the tag goes. */
    method RemoveTag(tag: string)
      modifies this
      ensures tags == TagEditor.RemoveTag(old(tags), tag)
      ensures values == old(values) && tagInput == old(tagInput)
    {
      tags := TagEditor.RemoveTag(tags, tag);
    }

    /** `onSubmit`: update the edited resource or add a new one, then close the dialog. */
    method OnSubmit(store: ResourceStore, id: string, now: int) returns (open: bool)
      modifies store
      ensures editing.Some? ==>
        store.resources == UpdatedResources(old(store.resources), editing.value.id, SubmittedPatch(values, tags), now)
      ensures editing.None? ==>
        store.resources == old(store.resources) + [NewResource(SubmittedInput(values, tags), id, now)]
      ensures !open
    {
      if editing.Some? {
        store.UpdateResource(editing.value.id, SubmittedPatch(values, tags), now);
      } else {
        store.AddResource(SubmittedInput(values, tags), id, now);
      }
      open := false;
    }
  }
}
