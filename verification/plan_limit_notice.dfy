/** The free-plan usage notice (`PlanLimitNotice`): one row per limit of
    the free plan, flagged when the usage has reached it. */
module PlanLimitNotice {
  import opened Wrappers
  import opened Seqs

  /** A limit of the free plan: its key, its label and its value. */
  datatype PlanLimit = PlanLimit(key: string, caption: string, limit: int)

  /** The free plan's limits, in declaration order. */
  const FreePlanLimits: seq<PlanLimit> := [
    PlanLimit("pets", "Pets cadastrados", 10),
    PlanLimit("appointmentsPerMonth", "Agendamentos no mes", 15),
    PlanLimit("products", "Itens no estoque", 20),
    PlanLimit("services", "Servicos cadastrados", 5)
  ]

  /** The right-hand text of a row: "current/limit", or "Limite: N" when
      no usage is known. */
  datatype RowText = UsageOfLimit(current: real, limit: int) | LimitOnly(limit: int)

  datatype LimitRow = LimitRow(key: string, caption: string, limit: int, current: Option<real>,
                               exceeded: bool, text: RowText)

  /** One row: the usage for the key if given, and whether it has reached
      the limit (reaching it counts). */
  function Row(usage: map<string, real>, l: PlanLimit): (r: LimitRow)
    ensures r.key == l.key && r.caption == l.caption && r.limit == l.limit
    ensures r.current.Some? <==> l.key in usage
    ensures r.exceeded <==> l.key in usage && usage[l.key] >= l.limit as real
    ensures r.current.None? ==> r.text == LimitOnly(l.limit)
  {
    var current := if l.key in usage then Some(usage[l.key]) else None;
    LimitRow(l.key, l.caption, l.limit, current,
             current.Some? && current.value >= l.limit as real,
             if current.Some? then UsageOfLimit(current.value, l.limit) else LimitOnly(l.limit))
  }

  function RowFor(usage: map<string, real>): PlanLimit -> LimitRow { (l: PlanLimit) => Row(usage, l) }

  /** `limits`. */
  function Limits(usage: map<string, real>): seq<LimitRow>
  {
    Map(FreePlanLimits, RowFor(usage))
  }

  /** The profile fields the notice reads. */
  datatype Profile = Profile(plan: string)

  /** The notice renders only for a profile on the free plan. */
  function Notice(profile: Option<Profile>, usage: map<string, real>): (r: Option<seq<LimitRow>>)
    ensures r.Some? <==> profile.Some? && profile.value.plan == "free"
    ensures r.Some? ==> r.value == Limits(usage)
  {
    if profile.Some? && profile.value.plan == "free" then Some(Limits(usage)) else None
  }

  /** The rows follow the limits one to one, each with its limit, and a
      row is flagged exactly when its usage is given and has reached it. */
  lemma {:induction false} RowsFollowLimits(usage: map<string, real>)
    ensures |Limits(usage)| == |FreePlanLimits| == 4
    ensures forall i :: 0 <= i < 4 ==>
              Limits(usage)[i].key == FreePlanLimits[i].key && Limits(usage)[i].limit == FreePlanLimits[i].limit
    ensures forall i :: 0 <= i < 4 ==>
              (Limits(usage)[i].exceeded <==> FreePlanLimits[i].key in usage
                                              && usage[FreePlanLimits[i].key] >= FreePlanLimits[i].limit as real)
  {}

  /** With no usage given, no row is flagged and each shows its limit. */
  lemma {:induction false} NoUsageNoFlags()
    ensures forall i :: 0 <= i < 4 ==> !Limits(map[])[i].exceeded && Limits(map[])[i].text == LimitOnly(FreePlanLimits[i].limit)
  {}
}
