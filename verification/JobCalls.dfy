/** What one call of the Job backend does, in the fields of the job its id names and of its settings. */
module JobCalls {
  import opened Api
  import opened Names
  import opened RecordSync
  import opened JobProvider

  /** The first condition of the job, and only that one, is this one, and it is true. */
  predicate FirstIs(job: Job, kind: string) {
    job.conditions != [] && job.conditions[0].kind == kind && job.conditions[0].status == "True"
  }

  /** The payload's data after a rendering, where this call makes one; without a template it panics. */
  ghost predicate Renders(config: Config, saves: bool, env: Surroundings) {
    saves ==> config.hasData && env.data.Some?
  }

  ghost predicate FailsToRender(config: Config, env: Surroundings, s: State, s': State, o: Outcome) {
    s' == s && if config.hasData then o.Error? else o == Panic
  }

  /**
   A job that completed is removed, with nil, and a nil Delete clears the payload. The strategies OnComplete and
   OnCompleteOrFailed write the data, even when the removal fails.
   */
  lemma CompletedJobExactly(config: Config, s: State, op: Op, env: Surroundings, n: Name)
    requires s.id != "" && ParseId(s.id) == Some(n) && n in s.jobs && !env.getFails && FirstIs(s.jobs[n], "Complete")
    ensures var (s', o) := Called(config, s, op, env);
      var saves := config.strategy == OnComplete || config.strategy == OnCompleteOrFailed;
      var data := if saves && env.data.Some? then env.data.value else s.data;
      if !Renders(config, saves, env) then FailsToRender(config, env, s, s', o)
      else if env.deleteFails then o.Error? && s' == State(s.id, data, s.jobs)
      else o == Done && s' == if op == Delete then State("", "", s.jobs - {n}) else State(s.id, data, s.jobs - {n})
  {
  }

  /** A job that failed is kept, with an error; only a job that was to create gives the id up. */
  lemma FailedJobExactly(config: Config, s: State, op: Op, env: Surroundings, n: Name)
    requires s.id != "" && ParseId(s.id) == Some(n) && n in s.jobs && !env.getFails && FirstIs(s.jobs[n], "Failed")
    ensures var (s', o) := Called(config, s, op, env);
      var saves := config.strategy == OnCompleteOrFailed;
      if !Renders(config, saves, env) then FailsToRender(config, env, s, s', o)
      else
        && o.Error? && s'.jobs == s.jobs && s'.data == (if saves then env.data.value else s.data)
        && s'.id == if s.jobs[n].action == "create" then "" else s.id
  {
  }

  /** Any other job is waited for, and a lookup that fails changes nothing. */
  lemma WaitsExactly(config: Config, s: State, op: Op, env: Surroundings, n: Name)
    requires s.id != "" && ParseId(s.id) == Some(n)
    requires env.getFails || (n in s.jobs && !FirstIs(s.jobs[n], "Complete") && !FirstIs(s.jobs[n], "Failed"))
    ensures var (s', o) := Called(config, s, op, env);
      s' == s && if env.getFails then o.Error? else o == Running
  {
  }

  /**
   Without such a job the rendered one is started, labelled with the operation and made from the record's current
   spec, and its namespace and name become the id. OnCreate renders the data first and writes it last.
   */
  lemma StartsExactly(config: Config, s: State, op: Op, env: Surroundings)
    requires s.id != "" ==> ParseId(s.id).Some? && ParseId(s.id).value !in s.jobs && !env.getFails
    ensures var (s', o) := Called(config, s, op, env);
      var saves := config.strategy == OnCreate;
      if env.rendered == None then o.Error? && s' == s
      else if !Renders(config, saves, env) then FailsToRender(config, env, s, s', o)
      else if env.createFails || env.rendered.value in s.jobs then o.Error? && s' == s
      else
        var n := env.rendered.value;
        && o == Running && n in s'.jobs && s'.jobs - {n} == s.jobs
        && s'.jobs[n].spec == env.spec && s'.jobs[n].conditions == []
        && (op == Create ==> s'.jobs[n].action == "create") && (op == Update ==> s'.jobs[n].action == "update")
        && (op == Delete ==> s'.jobs[n].action == "delete")
        && s'.id == n.namespace + "/" + n.name && s'.data == if saves then env.data.value else s.data
  {
    if env.rendered.Some? {
      KeyText(env.rendered.value);
    }
  }
}
