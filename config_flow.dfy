/**
 * The user step of the config flow, in both copies of the integration: a
 * submitted form becomes the config entry as it is; otherwise the form is
 * shown, with the port of a started Raumkernel add-on as its default when the
 * Supervisor is there to ask.
 */
module ConfigFlow {
  import opened Wrappers

  /** The defaults of the form's two fields. */
  const DefaultHost := "localhost"
  const DefaultPort := 3000

  /** The add-on slugs asked for, in order: a locally built add-on first, then the store one. */
  const LocalSlug := "local_ha-raumkernel-addon"
  const StoreSlug := "ha-raumkernel-addon"
  const Slugs := [LocalSlug, StoreSlug]

  /** The `options` entry of an add-on's info: missing, a dictionary, or some other value. */
  datatype AddonOptions = NoOptions | Dict(entries: map<string, int>) | NotADict

  datatype AddonInfo = AddonInfo(state: Option<string>, options: AddonOptions)

  /**
   * What `get_addon_info` does for one slug: it raises, or returns the info,
   * `None` standing for an info that is empty or missing.
   */
  datatype AddonQuery = Raises | Returns(info: Option<AddonInfo>)

  /**
   * The Supervisor as the flow sees it: whether its helpers could be imported,
   * whether this installation runs under it, and its answer for each slug.
   */
  datatype Supervisor = Supervisor(hassioAvailable: bool, isHassio: bool, query: string -> AddonQuery)

  /** What asking for one slug yields: the port of a started add-on, or go on to the next slug. */
  datatype Probe = Found(port: int) | Skipped | Failed

  /**
   * A started add-on gives the `PORT` of its options (3000 without one); an
   * add-on that is not started, or no info at all, is skipped; a lookup that
   * raises, including reading options that are not a dictionary, fails.
   */
  function ProbeOf(q: AddonQuery): (r: Probe)
    ensures r.Found? <==> q.Returns? && q.info.Some? && q.info.value.state == Some("started")
                          && !q.info.value.options.NotADict?
    ensures r.Failed? <==> q.Raises? || (q.info.Some? && q.info.value.state == Some("started")
                                         && q.info.value.options.NotADict?)
    ensures r.Found? && q.info.value.options.Dict? && "PORT" in q.info.value.options.entries ==>
              r.port == q.info.value.options.entries["PORT"]
    ensures r.Found? && !(q.info.value.options.Dict? && "PORT" in q.info.value.options.entries) ==>
              r.port == DefaultPort
  {
    match q
    case Raises => Failed
    case Returns(None) => Skipped
    case Returns(Some(info)) =>
      if info.state != Some("started") then Skipped
      else match info.options
        case NoOptions => Found(DefaultPort)
        case Dict(entries) => Found(if "PORT" in entries then entries["PORT"] else DefaultPort)
        case NotADict => Failed
  }

  /** The Supervisor's answers for the slugs, in order. */
  function Queries(query: string -> AddonQuery): (qs: seq<AddonQuery>)
    ensures |qs| == |Slugs| && forall k :: 0 <= k < |Slugs| ==> qs[k] == query(Slugs[k])
  {
    seq(|Slugs|, k requires 0 <= k < |Slugs| => query(Slugs[k]))
  }

  /** The port of the first answer that finds a started add-on, if any. */
  function FirstStarted(qs: seq<AddonQuery>): Option<int> {
    if qs == [] then None
    else match ProbeOf(qs[0])
      case Found(p) => Some(p)
      case _ => FirstStarted(qs[1..])
  }

  /** How many slugs are asked for: up to and including the first that finds the add-on. */
  function ProbesMade(qs: seq<AddonQuery>): (n: nat)
    ensures n <= |qs|
  {
    if qs == [] then 0
    else if ProbeOf(qs[0]).Found? then 1
    else 1 + ProbesMade(qs[1..])
  }

  /** The port the form offers after asking the Supervisor. */
  function DiscoveredPort(query: string -> AddonQuery): int {
    FirstStarted(Queries(query)).GetOr(DefaultPort)
  }

  /**
   * The first answer that finds a started add-on decides the port, whatever
   * the answers before it (skipped or raising) and after it.
   */
  lemma {:induction false} FirstStartedIsFirstFound(qs: seq<AddonQuery>, p: int)
    ensures FirstStarted(qs) == Some(p) <==>
      exists k :: 0 <= k < |qs| && ProbeOf(qs[k]) == Found(p)
                  && forall j :: 0 <= j < k ==> !ProbeOf(qs[j]).Found?
  {
    if qs != [] {
      FirstStartedIsFirstFound(qs[1..], p);
      if ProbeOf(qs[0]).Found? {
        if FirstStarted(qs) != Some(p) {
          forall k | 0 <= k < |qs| && ProbeOf(qs[k]) == Found(p)
            ensures exists j :: 0 <= j < k && ProbeOf(qs[j]).Found?
          {
            assert k != 0;
            assert ProbeOf(qs[0]).Found?;
          }
        }
      } else {
        if FirstStarted(qs) == Some(p) {
          var k :| 0 <= k < |qs[1..]| && ProbeOf(qs[1..][k]) == Found(p)
                   && forall j :: 0 <= j < k ==> !ProbeOf(qs[1..][j]).Found?;
          assert ProbeOf(qs[k + 1]) == Found(p);
          assert forall j :: 0 <= j < k + 1 ==> !ProbeOf(qs[j]).Found? by {
            forall j | 0 <= j < k + 1 ensures !ProbeOf(qs[j]).Found? {
              if j > 0 {
                assert qs[j] == qs[1..][j - 1];
              }
            }
          }
        } else {
          forall k | 0 <= k < |qs| && ProbeOf(qs[k]) == Found(p)
            ensures exists j :: 0 <= j < k && ProbeOf(qs[j]).Found?
          {
            assert k != 0;
            assert ProbeOf(qs[1..][k - 1]) == Found(p);
            var j :| 0 <= j < k - 1 && ProbeOf(qs[1..][j]).Found?;
            assert ProbeOf(qs[j + 1]).Found?;
          }
        }
      }
    }
  }

  /**
   * The slugs asked for stop at the one that finds the add-on; without one,
   * every slug is asked for.
   */
  lemma {:induction false} ProbesStopAtFound(qs: seq<AddonQuery>)
    ensures FirstStarted(qs).None? ==> ProbesMade(qs) == |qs|
    ensures FirstStarted(qs).Some? ==>
      && 0 < ProbesMade(qs)
      && ProbeOf(qs[ProbesMade(qs) - 1]) == Found(FirstStarted(qs).value)
      && forall j :: 0 <= j < ProbesMade(qs) - 1 ==> !ProbeOf(qs[j]).Found?
  {
    if qs != [] && !ProbeOf(qs[0]).Found? {
      ProbesStopAtFound(qs[1..]);
      if FirstStarted(qs).Some? {
        forall j | 0 <= j < ProbesMade(qs) - 1 ensures !ProbeOf(qs[j]).Found? {
          if j > 0 {
            assert qs[j] == qs[1..][j - 1];
          }
        }
      }
    }
  }

  /**
   * When the local slug does not find a started add-on, because it is not
   * installed, not started or its lookup raises, the store slug decides.
   */
  lemma StoreAddonAfterLocal(query: string -> AddonQuery)
    requires !ProbeOf(query(LocalSlug)).Found?
    ensures ProbeOf(query(StoreSlug)).Found? ==> DiscoveredPort(query) == ProbeOf(query(StoreSlug)).port
    ensures !ProbeOf(query(StoreSlug)).Found? ==> DiscoveredPort(query) == DefaultPort
  {
    var qs := Queries(query);
    assert qs[0] == query(LocalSlug) && qs[1] == query(StoreSlug);
    assert FirstStarted(qs) == FirstStarted(qs[1..]);
    assert qs[1..][0] == query(StoreSlug) && qs[1..][1..] == [];
    if !ProbeOf(query(StoreSlug)).Found? {
      assert FirstStarted(qs[1..]) == FirstStarted(qs[1..][1..]);
    }
  }

  /**
   * The discovery loop: ask for each slug in turn, stop at the first started
   * add-on, go on after a lookup that raises.
   */
  method DiscoverPort(query: string -> AddonQuery) returns (port: int, asked: seq<string>)
    ensures port == DiscoveredPort(query)
    ensures asked == Slugs[..ProbesMade(Queries(query))]
    ensures ProbeOf(query(LocalSlug)).Found? ==> port == ProbeOf(query(LocalSlug)).port && asked == [LocalSlug]
  {
    ghost var qs := Queries(query);
    assert qs[0] == query(LocalSlug);
    port := DefaultPort;
    asked := [];
    for i := 0 to |Slugs|
      invariant asked == Slugs[..i]
      invariant port == DefaultPort
      invariant FirstStarted(qs) == FirstStarted(qs[i..])
      invariant ProbesMade(qs) == i + ProbesMade(qs[i..])
    {
      assert qs[i..][1..] == qs[i + 1..];
      var q := query(Slugs[i]);
      asked := asked + [Slugs[i]];
      if q.Returns? && q.info.Some? && q.info.value.state == Some("started") {
        var options := q.info.value.options;
        if options.NotADict? {
          // reading `PORT` raises, and the loop goes on with the next slug
          continue;
        }
        port := if options.Dict? && "PORT" in options.entries then options.entries["PORT"] else DefaultPort;
        break;
      }
    }
  }

  /** The values of a submitted form. */
  datatype FieldValue = Text(text: string) | Number(number: int)

  /** What the step returns: a new config entry, or the form to show. */
  datatype FlowResult =
    | CreateEntry(title: string, data: map<string, FieldValue>)
    | ShowForm(stepId: string, hostDefault: string, portDefault: int, errors: map<string, string>)

  /** The two copies of the flow, which differ in the title of the entry they create. */
  datatype Flow = RaumkernelAddonFlow | RaumfeldFlow {
    function Title(): string {
      match this
      case RaumkernelAddonFlow => "Teufel Raumfeld (Raumkernel Addon)"
      case RaumfeldFlow => "Raumfeld"
    }
  }

  /**
   * `async_step_user`: submitted input is stored as the entry's data without
   * validation; otherwise the form is shown with host `localhost` and the
   * discovered port, asking the Supervisor only when it is there, and no error.
   */
  method StepUser(flow: Flow, env: Supervisor, userInput: Option<map<string, FieldValue>>)
    returns (result: FlowResult, asked: seq<string>)
    ensures userInput.Some? ==> result == CreateEntry(flow.Title(), userInput.value) && asked == []
    ensures userInput.None? ==>
      && result.ShowForm? && result.stepId == "user"
      && result.hostDefault == DefaultHost && result.errors == map[]
    ensures userInput.None? && env.hassioAvailable && env.isHassio ==>
      result.portDefault == DiscoveredPort(env.query) && asked == Slugs[..ProbesMade(Queries(env.query))]
    ensures userInput.None? && !(env.hassioAvailable && env.isHassio) ==>
      result.portDefault == DefaultPort && asked == []
  {
    var errors: map<string, string> := map[];
    if userInput.Some? {
      return CreateEntry(flow.Title(), userInput.value), [];
    }
    var host := DefaultHost;
    var port := DefaultPort;
    asked := [];
    if env.hassioAvailable && env.isHassio {
      port, asked := DiscoverPort(env.query);
    }
    result := ShowForm("user", host, port, errors);
  }
}
