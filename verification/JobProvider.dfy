/** The Job backend: a DNS change runs as a Kubernetes Job, and the payload's id is the only memory between calls. */
module JobProvider {
  import opened Api
  import opened Names
  import opened RecordSync
  import opened Contract

  datatype Condition = Condition(kind: string, status: string, reason: string, message: string)

  /** A job, with the spec of the record it was rendered for. */
  datatype Job = Job(action: string, spec: RecordSpec, conditions: seq<Condition>) {
    predicate Holds(kind: string) {
      |conditions| > 0 && conditions[0].kind == kind && conditions[0].status == "True"
    }

    predicate Complete() {
      Holds("Complete")
    }

    predicate Failed() {
      Holds("Failed")
    }

    predicate Finished() {
      Complete() || Failed()
    }
  }

  datatype Strategy = NoData | OnCreate | OnComplete | OnCompleteOrFailed

  /** How the provider is set up; the data template is optional, and without one its pointer stays nil. */
  datatype Config = Config(strategy: Strategy, hasData: bool) {
    predicate SavesOnComplete() {
      strategy == OnComplete || strategy == OnCompleteOrFailed
    }

    predicate SavesOnFailure() {
      strategy == OnCompleteOrFailed
    }

    predicate SavesOnCreate() {
      strategy == OnCreate
    }
  }

  datatype Outcome = Done | Running | Error(text: string) | Panic

  /**
   The record's current spec, and what the outside answers during one call: API failures, the name of the rendered
   job, the rendered data.
   */
  datatype Surroundings = Surroundings(
    spec: RecordSpec, getFails: bool, deleteFails: bool, createFails: bool, rendered: Option<Name>,
      data: Option<string>)

  /** The part of the world one call reads and writes. */
  datatype State = State(id: string, data: string, jobs: map<Name, Job>)

  function ActionOf(op: Op): string {
    match op case Create => "create" case Update => "update" case Delete => "delete"
  }

  /** The job named by the payload, as far as it still exists. */
  function Named(s: State): Option<Job> {
    match ParseId(s.id)
    case None => None
    case Some(n) => if n in s.jobs then Some(s.jobs[n]) else None
  }

  /** executeJob. */
  function Executed(config: Config, s: State, action: string, env: Surroundings): (State, Outcome) {
    if s.id != "" && ParseId(s.id) == None then (s, Panic)
    else if s.id != "" && env.getFails then (s, Error("get"))
    else if s.id != "" && Named(s).Some? then Checked(config, s, ParseId(s.id).value, Named(s).value, env)
    else Started(config, s, action, env)
  }

  /** Executing the data template: nil is dereferenced, and rendering may fail. */
  function Rendered(config: Config, env: Surroundings): Outcome {
    if !config.hasData then Panic else if env.data == None then Error("data") else Done
  }

  function Checked(config: Config, s: State, name: Name, job: Job, env: Surroundings): (State, Outcome) {
    if job.Complete() then
      if config.SavesOnComplete() && Rendered(config, env) != Done then (s, Rendered(config, env))
      else
        var s' := if config.SavesOnComplete() then s.(data := env.data.value) else s;
        if env.deleteFails then (s', Error("delete")) else (s'.(jobs := s.jobs - {name}), Done)
    else if job.Failed() then
      if config.SavesOnFailure() && Rendered(config, env) != Done then (s, Rendered(config, env))
      else
        var s' := if config.SavesOnFailure() then s.(data := env.data.value) else s;
        (if job.action == "create" then s'.(id := "") else s', Error("job failed"))
    else (s, Running)
  }

  function Started(config: Config, s: State, action: string, env: Surroundings): (State, Outcome) {
    if env.rendered == None then (s, Error("template"))
    else if config.SavesOnCreate() && Rendered(config, env) != Done then (s, Rendered(config, env))
    else
      var name := env.rendered.value;
      if env.createFails || name in s.jobs then (s, Error("create"))
      else
        var data := if config.SavesOnCreate() then env.data.value else s.data;
        (State(name.Key(), data, s.jobs[name := Job(action, env.spec, [])]), Running)
  }

  /** Create and Update are executeJob; Delete also clears the payload when it returns nil. */
  function Called(config: Config, s: State, op: Op, env: Surroundings): (State, Outcome) {
    var (s', o) := Executed(config, s, ActionOf(op), env);
    if op == Delete && o == Done then (s'.(id := "", data := ""), o) else (s', o)
  }

  class Cluster {
    var jobs: map<Name, Job>

    constructor (jobs: map<Name, Job>)
      ensures this.jobs == jobs
    {
      this.jobs := jobs;
    }
  }

  class JobProvider {
    const config: Config

    constructor (config: Config)
      ensures this.config == config
    {
      this.config := config;
    }

    static ghost function View(payload: Payload, cluster: Cluster): State
      reads payload, cluster
    {
      State(payload.id, payload.data, cluster.jobs)
    }

    method Execute(action: string, payload: Payload, cluster: Cluster, env: Surroundings) returns (o: Outcome)
      modifies payload, cluster
      ensures (View(payload, cluster), o) == Executed(config, old(View(payload, cluster)), action, env)
    {
      if payload.id != "" {
        var parsed := ParseId(payload.id);
        if parsed == None {
          return Panic;
        }
        if env.getFails {
          return Error("get");
        }
        var name := parsed.value;
        if name in cluster.jobs {
          var job := cluster.jobs[name];
          if |job.conditions| == 0 {
            return Running;
          }
          var first := job.conditions[0];
          if first.kind == "Complete" && first.status == "True" {
            var deferred: Option<string> := None;
            if config.strategy == OnComplete || config.strategy == OnCompleteOrFailed {
              if !config.hasData {
                return Panic;
              }
              if env.data == None {
                return Error("data");
              }
              deferred := env.data;
            }
            if env.deleteFails {
              o := Error("delete");
            } else {
              cluster.jobs := cluster.jobs - {name};
              o := Done;
            }
            // The deferred write looks at the error of the lookup, which is nil here, not at the result.
            if deferred.Some? {
              payload.data := deferred.value;
            }
            return o;
          } else if first.kind == "Failed" && first.status == "True" {
            if config.strategy == OnCompleteOrFailed {
              if !config.hasData {
                return Panic;
              }
              if env.data == None {
                return Error("data");
              }
              payload.data := env.data.value;
            }
            if job.action == "create" {
              payload.id := "";
            }
            return Error("job failed");
          } else {
            return Running;
          }
        }
      }
      if env.rendered == None {
        return Error("template");
      }
      if config.strategy == OnCreate {
        if !config.hasData {
          return Panic;
        }
        if env.data == None {
          return Error("data");
        }
      }
      var name := env.rendered.value;
      if env.createFails || name in cluster.jobs {
        return Error("create");
      }
      cluster.jobs := cluster.jobs[name := Job(action, env.spec, [])];
      if config.strategy == OnCreate {
        payload.data := env.data.value;
      }
      payload.id := name.Key();
      return Running;
    }

    method Call(op: Op, payload: Payload, cluster: Cluster, env: Surroundings) returns (o: Outcome)
      modifies payload, cluster
      ensures (View(payload, cluster), o) == Called(config, old(View(payload, cluster)), op, env)
    {
      o := Execute(ActionOf(op), payload, cluster, env);
      if op == Delete && o == Done {
        payload.id, payload.data := "", "";
      }
    }
  }
}
