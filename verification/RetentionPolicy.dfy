/** Which keep counts a pass may act on: the global ones, the ones frozen into the run that
    triggered it, or none at all when their provenance cannot be established. */
module RetentionPolicy {
  import opened Prelude

  /** A value read from a run's stored options, before any schema gives it a default. */
  datatype Raw = Missing | Whole(value: int) | Text(text: string) | Other

  datatype Options = Options(source: Raw, keepLocal: Raw, keepRemote: Raw)

  /** The run behind a trigger. Options that were never stored read as empty. */
  datatype Context = Context(job: Option<nat>, options: Option<Options>, jobKeepLocal: Option<int>,
                             jobKeepRemote: Option<int>)

  datatype Counts = Counts(local: nat, remote: nat)

  datatype Source = Global | Job | LegacyJob

  datatype BlockReason = JobCountsMissing | SourceInvalid | LegacyJobCountsMissing | ProvenanceUnknown

  datatype Resolution =
    | Resolved(counts: Counts, source: Source)
    | Unresolved(counts: Counts, reason: BlockReason)

  predicate InRange(local: int, remote: int) { 1 <= local <= 365 && 0 <= remote <= 365 }

  function FrozenCounts(o: Options): Option<Counts> {
    if !o.keepLocal.Whole? || !o.keepRemote.Whole? || !InRange(o.keepLocal.value, o.keepRemote.value) then None
    else Some(Counts(o.keepLocal.value, o.keepRemote.value))
  }

  function LinkedCounts(c: Context): Option<Counts> {
    if c.jobKeepLocal.None? || c.jobKeepRemote.None? || !InRange(c.jobKeepLocal.value, c.jobKeepRemote.value) then None
    else Some(Counts(c.jobKeepLocal.value, c.jobKeepRemote.value))
  }

  function OptionsOf(c: Context): Options {
    if c.options.Some? then c.options.value else Options(Missing, Missing, Missing)
  }

  function Resolve(context: Option<Context>, global: Counts): Resolution {
    if context.None? then Resolved(global, Global)
    else
      var c := context.value;
      var raw := OptionsOf(c);
      if raw.source == Text("global") then Resolved(global, Global)
      else if raw.source == Text("job") then
        match FrozenCounts(raw)
        case Some(counts) => Resolved(counts, Job)
        case None => Unresolved(global, JobCountsMissing)
      else if raw.source != Missing then Unresolved(global, SourceInvalid)
      else if c.job.Some? then
        match FrozenCounts(raw)
        case Some(counts) => Resolved(counts, LegacyJob)
        case None =>
          match LinkedCounts(c)
          case Some(counts) => Resolved(counts, LegacyJob)
          case None => Unresolved(global, LegacyJobCountsMissing)
      else Unresolved(global, ProvenanceUnknown)
  }

  /** Counts with an unknown origin are never acted on: a resolution is reached exactly when
      there is no run to ask, the run says the policy was global, or valid counts survive either
      in the run or in the job it is still linked to. */
  lemma ResolvedIff(context: Option<Context>, global: Counts)
    ensures Resolve(context, global).Resolved? <==>
      || context.None?
      || OptionsOf(context.value).source == Text("global")
      || ((OptionsOf(context.value).source == Text("job")
           || (OptionsOf(context.value).source == Missing && context.value.job.Some?))
          && FrozenCounts(OptionsOf(context.value)).Some?)
      || (OptionsOf(context.value).source == Missing && context.value.job.Some? && LinkedCounts(context.value).Some?)
  {
  }

  /** Frozen counts win over the job's current ones, so editing a job never changes what an
      older run's completion deletes; and no resolution leaves the permitted range. */
  lemma ResolvedCounts(context: Option<Context>, global: Counts)
    requires Resolve(context, global).Resolved?
    ensures Resolve(context, global).counts ==
      if Resolve(context, global).source == Global then global
      else if FrozenCounts(OptionsOf(context.value)).Some? then FrozenCounts(OptionsOf(context.value)).value
      else LinkedCounts(context.value).value
    ensures InRange(global.local, global.remote) ==>
      InRange(Resolve(context, global).counts.local, Resolve(context, global).counts.remote)
  {
  }

  // ---- the resolution, from what is stored ---------------------------------------------

  /** No run to ask, or a run that was global: the configured counts. */
  lemma GlobalCountsStand(context: Option<Context>, global: Counts)
    requires context.None? || (context.value.options.Some? && context.value.options.value.source == Text("global"))
    ensures Resolve(context, global) == Resolved(global, Global)
  {
  }

  /** A run of a job acts on the two counts stored in it, each in its own place and range, or on
      none. */
  lemma JobCountsStand(c: Context, o: Options, global: Counts)
    requires c.options == Some(o) && o.source == Text("job")
    ensures Resolve(Some(c), global) ==
      match (o.keepLocal, o.keepRemote)
      case (Whole(l), Whole(r)) =>
        if 1 <= l <= 365 && 0 <= r <= 365 then Resolved(Counts(l, r), Job) else Unresolved(global, JobCountsMissing)
      case _ => Unresolved(global, JobCountsMissing)
  {
  }

  /** A run of a job from before the source was recorded acts on the counts stored in it, if both are
      there and in range. */
  lemma LegacyCountsStand(c: Context, o: Options, l: int, r: int, global: Counts)
    requires c.job.Some? && c.options == Some(o) && o.source == Missing
    requires o.keepLocal == Whole(l) && o.keepRemote == Whole(r) && 1 <= l <= 365 && 0 <= r <= 365
    ensures Resolve(Some(c), global) == Resolved(Counts(l, r), LegacyJob)
  {
  }

  /** Otherwise on the linked job's present ones, each in its own place and range, or on none. */
  lemma LinkedCountsStand(c: Context, global: Counts)
    requires c.job.Some? && (c.options.Some? ==> c.options.value.source == Missing)
    requires c.options.None? || !c.options.value.keepLocal.Whole? || !c.options.value.keepRemote.Whole?
      || c.options.value.keepLocal.value < 1 || c.options.value.keepLocal.value > 365
      || c.options.value.keepRemote.value < 0 || c.options.value.keepRemote.value > 365
    ensures Resolve(Some(c), global) ==
      match (c.jobKeepLocal, c.jobKeepRemote)
      case (Some(l), Some(r)) =>
        if 1 <= l <= 365 && 0 <= r <= 365 then Resolved(Counts(l, r), LegacyJob)
        else Unresolved(global, LegacyJobCountsMissing)
      case _ => Unresolved(global, LegacyJobCountsMissing)
  {
  }

  /** Anything else acts on nothing: a run without a job and without a source, or a source nobody
      knows. */
  lemma OthersStandStill(c: Context, global: Counts)
    ensures c.job.None? && (c.options.None? || c.options.value.source == Missing) ==>
      Resolve(Some(c), global) == Unresolved(global, ProvenanceUnknown)
    ensures c.options.Some? && c.options.value.source !in {Missing, Text("job"), Text("global")} ==>
      Resolve(Some(c), global) == Unresolved(global, SourceInvalid)
  {
  }
}
