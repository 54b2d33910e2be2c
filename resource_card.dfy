/**
 * One resource's card (components/resource-card.tsx): the label tables for
 * types, statuses and providers, the optional spec rows and the tag chips
 * with their overflow count.
 */
module ResourceCard {
  import opened Wrappers
  import opened ResourceContext

  /** `typeConfig[type].label`. */
  function TypeLabel(t: ResourceType): string {
    match t
    case Compute => "Compute"
    case Database => "Database"
    case Storage => "Storage"
    case Network => "Network"
    case Container => "Container"
    case Serverless => "Serverless"
  }

  /** The chart colour `text-chart-<n>` of `typeConfig[type].color`. */
  function TypeColour(t: ResourceType): (n: nat)
    ensures 1 <= n <= 5
  {
    match t
    case Compute => 1
    case Database => 2
    case Storage => 3
    case Network => 4
    case Container => 5
    case Serverless => 1
  }

  datatype BadgeVariant = DefaultBadge | SecondaryBadge | DestructiveBadge

  /** `statusConfig[status].label`. */
  function StatusLabel(s: ResourceStatus): string {
    match s
    case Active => "Active"
    case Inactive => "Inactive"
    case Pending => "Pending"
    case Error => "Error"
  }

  /** `statusConfig[status].variant`. */
  function StatusVariant(s: ResourceStatus): (v: BadgeVariant)
    ensures v == DestructiveBadge <==> s == Error
    ensures v == DefaultBadge <==> s == Active
  {
    match s
    case Active => DefaultBadge
    case Inactive => SecondaryBadge
    case Pending => SecondaryBadge
    case Error => DestructiveBadge
  }

  /** `providerLabels[provider]`. */
  function ProviderLabel(p: CloudProvider): string {
    match p
    case Aws => "AWS"
    case Gcp => "GCP"
    case Azure => "Azure"
  }

  /** Every type, status and provider has its own label; two types share a colour only as compute and serverless do. */
  lemma LabelsDistinct(a: ResourceType, b: ResourceType, s: ResourceStatus, t: ResourceStatus, p: CloudProvider, q: CloudProvider)
    ensures a != b ==> TypeLabel(a) != TypeLabel(b)
    ensures s != t ==> StatusLabel(s) != StatusLabel(t)
    ensures p != q ==> ProviderLabel(p) != ProviderLabel(q)
    ensures a != b && TypeColour(a) == TypeColour(b) ==> {a, b} == {Compute, Serverless}
    ensures ProviderLabel(Gcp) == "GCP"
  {
  }

  // ---------------------------------------------------------------------------
  // Spec rows

  datatype SpecRow = CpuRow(vcpu: real) | MemoryRow(gb: real) | StorageRow(gb: real)

  /** `value && (...)`: a row only for a value that is present and not zero. */
  function Shown(v: Option<real>): (r: bool)
    ensures r <==> v.Some? && v.value != 0.0
  {
    v.Some? && v.value != 0.0
  }

  /** The CPU, memory and storage rows, in this order, each only when shown. */
  function SpecRows(r: Resource): (rows: seq<SpecRow>)
    ensures |rows| <= 3
    ensures CpuRow(r.cpu.GetOr(0.0)) in rows <==> Shown(r.cpu)
    ensures MemoryRow(r.memory.GetOr(0.0)) in rows <==> Shown(r.memory)
    ensures StorageRow(r.storage.GetOr(0.0)) in rows <==> Shown(r.storage)
    ensures forall k :: 0 <= k < |rows| ==> match rows[k]
      case CpuRow(v) => Shown(r.cpu) && v == r.cpu.value
      case MemoryRow(v) => Shown(r.memory) && v == r.memory.value
      case StorageRow(v) => Shown(r.storage) && v == r.storage.value
  {
    (if Shown(r.cpu) then [CpuRow(r.cpu.value)] else []) +
    (if Shown(r.memory) then [MemoryRow(r.memory.value)] else []) +
    (if Shown(r.storage) then [StorageRow(r.storage.value)] else [])
  }

  // ---------------------------------------------------------------------------
  // Tag chips

  /** The tag row: the chips shown and the `+N` chip, if any. */
  datatype TagRow = TagRow(chips: seq<string>, more: Option<nat>)

  /** `tags.length > 0 && (...)`: `tags.slice(0, 3)` and `+{tags.length - 3}` when there are more than three. */
  function Tags(tags: seq<string>): (row: Option<TagRow>)
    ensures row.None? <==> tags == []
    ensures row.Some? ==> row.value.chips <= tags && |row.value.chips| == if |tags| < 3 then |tags| else 3
    ensures row.Some? ==> (row.value.more.Some? <==> |tags| > 3)
    ensures row.Some? ==> |row.value.chips| + row.value.more.GetOr(0) == |tags|
  {
    if tags == [] then None
    else if |tags| <= 3 then Some(TagRow(tags, None))
    else Some(TagRow(tags[..3], Some(|tags| - 3)))
  }
}
