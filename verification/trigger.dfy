/** Trigger matching (`src/trigger/mod.rs`): a normalised trigger event is
    matched against the configured repositories by name, then against the
    repository's branch and tag filters; a match schedules a pipeline run. */
module Trigger {
  import opened Wrappers
  import opened Config

  datatype TriggeredInfo = TriggeredInfo(repository: string, branch: Option<string>,
                                         tag: Option<string>, stepsName: Option<string>)

  /** The filter value that accepts any branch or tag. */
  const AnyValue: string := "@any"

  /** The answer of `delivery` and the run it spawns, if any. */
  datatype Delivery = Delivery(result: bool, scheduled: Option<Repository>)

  /** `repository.iter().find(|i| i.name == name)`, as the position found. */
  function FindRepository(repos: seq<Repository>, name: string): (r: Option<nat>)
    ensures r.Some? ==> r.value < |repos| && repos[r.value].name == name
    ensures r.Some? ==> forall j :: 0 <= j < r.value ==> repos[j].name != name
    ensures r.None? ==> forall j :: 0 <= j < |repos| ==> repos[j].name != name
  {
    if repos == [] then None
    else if repos[0].name == name then Some(0)
    else match FindRepository(repos[1..], name)
      case None => None
      case Some(i) => Some(i + 1)
  }

  /** One configured filter against the trigger's value: an absent filter
      accepts everything; a configured one rejects a
      missing value, accepts any value when it is `"@any"`, and otherwise
      accepts only an equal value. */
  function FilterPasses(filter: Option<string>, value: Option<string>): (b: bool)
    ensures filter.None? ==> b
    ensures filter.Some? && value.None? ==> !b
    ensures filter == Some(AnyValue) && value.Some? ==> b
    ensures filter.Some? && filter.value != AnyValue && value.Some? ==> (b <==> value.value == filter.value)
  {
    match filter
    case None => true
    case Some(f) =>
      match value
      case Some(v) => f == AnyValue || v == f
      case None => false
  }

  /** `TriggeredInfo::delivery`: `true` unless a found repository's filters
      reject the event; the run is spawned only for a found, accepted one. */
  function Deliver(config: Config, ti: TriggeredInfo): (d: Delivery)
    ensures FindRepository(config.repository, ti.repository).None? ==> d == Delivery(true, None)
    ensures FindRepository(config.repository, ti.repository).Some? ==>
      var repo := config.repository[FindRepository(config.repository, ti.repository).value];
      d.result == (FilterPasses(repo.branch, ti.branch) && FilterPasses(repo.tag, ti.tag))
    ensures d.scheduled.Some? <==> d.result && FindRepository(config.repository, ti.repository).Some?
    ensures d.scheduled.Some? ==> d.scheduled.value.name == ti.repository && d.scheduled.value in config.repository
  {
    match FindRepository(config.repository, ti.repository)
    case None => Delivery(true, None)
    case Some(i) =>
      var repo := config.repository[i];
      if !FilterPasses(repo.branch, ti.branch) then Delivery(false, None)
      else if !FilterPasses(repo.tag, ti.tag) then Delivery(false, None)
      else Delivery(true, Some(repo))
  }

  /** The repository used is the first one carrying the trigger's name. */
  lemma DeliverUsesFirstByName(config: Config, ti: TriggeredInfo, i: nat)
    requires i < |config.repository| && config.repository[i].name == ti.repository
    requires forall j :: 0 <= j < i ==> config.repository[j].name != ti.repository
    ensures Deliver(config, ti).scheduled.Some? ==> Deliver(config, ti).scheduled.value == config.repository[i]
    ensures !Deliver(config, ti).result ==>
      !FilterPasses(config.repository[i].branch, ti.branch) || !FilterPasses(config.repository[i].tag, ti.tag)
  {
    var k := FindRepository(config.repository, ti.repository);
    assert k.Some?;
  }

  /** A repository without filters accepts every event for it and schedules a run. */
  lemma NoFiltersAlwaysScheduled(config: Config, ti: TriggeredInfo, i: nat)
    requires i < |config.repository| && config.repository[i].name == ti.repository
    requires forall j :: 0 <= j < |config.repository| && config.repository[j].name == ti.repository ==>
      config.repository[j].branch.None? && config.repository[j].tag.None?
    ensures Deliver(config, ti).result && Deliver(config, ti).scheduled.Some?
  {
  }

  /** An event for an unknown repository is answered `true` and runs nothing. */
  lemma UnknownRepositoryIsNoOp(config: Config, ti: TriggeredInfo)
    requires forall j :: 0 <= j < |config.repository| ==> config.repository[j].name != ti.repository
    ensures Deliver(config, ti) == Delivery(true, None)
  {
  }
}
