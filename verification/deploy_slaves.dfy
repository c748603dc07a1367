/**
 * `deploySlaves` (local/app-slave-provisioner/index.js, lines 53-75): check how many app
 * slaves are requested, send one request to start that many, wait for it through
 * `promiseAllTimeout`, and hand back the caller's items, each copied and given the name of
 * its container.
 *
 * The HTTP call itself is a pending operation whose fulfilment value is a truthy response;
 * the wait is the state machine of module PromiseAllTimeout with one operation and
 * partial resolution on (the default on line 14).
 */
module DeploySlaves {
  import opened Wrappers
  import PromiseAllTimeout

  /** A JSON value, as held by the fields of the caller's items. */
  datatype Value =
    | Null
    | Bool(b: bool)
    | Number(n: int)
    | Str(s: string)
    | List(elems: seq<Value>)
    | Object(fields: map<string, Value>)

  /** One caller-supplied item: an object's own enumerable fields. */
  type Item = map<string, Value>

  const MinSlaves: nat := 1
  const MaxSlaves: nat := 12
  const NameField := "appSlaveContainerName"
  const NamePrefix := "appslave_zap_"
  const TimeoutMessage := "Timeout exceeded: App Slave container(s) took too long to start. Although they timed out, they may have still started. Also check that docker-compose-ui is up."

  /** The `PUT /services` request of line 63. */
  datatype PutRequest = PutRequest(path: string, service: string, project: string, num: nat)

  /** The object created on line 56 and filled on lines 66-72; `None` is `undefined`. */
  datatype DeployResult = DeployResult(items: seq<Item>, error: Option<string>)

  /** How far `deploySlaves` has got, given the state of the wait on its one request. */
  datatype Deployment<E> =
    | Invalid(message: string)      // thrown on line 58, before any request exists
    | Waiting(request: PutRequest)  // request sent; the await on line 64 has not resumed
    | Failed(error: E)              // the request was rejected, so the await throws
    | Done(result: DeployResult)    // line 74

  predicate IsDigits(s: string)
  {
    forall k :: 0 <= k < |s| ==> '0' <= s[k] <= '9'
  }

  function DigitChar(d: nat): (c: char)
    requires d < 10
    ensures '0' <= c <= '9'
  {
    ('0' as int + d) as char
  }

  function DigitValue(c: char): nat
    requires '0' <= c <= '9'
  {
    c as int - '0' as int
  }

  /** How a template literal prints a non-negative integer: decimal digits, no leading zero. */
  function Decimal(n: nat): (s: string)
    ensures |s| >= 1 && IsDigits(s)
    ensures n > 0 ==> s[0] != '0'
    decreases n
  {
    if n < 10 then [DigitChar(n)] else Decimal(n / 10) + [DigitChar(n % 10)]
  }

  /** Reads decimal digits back as a number. */
  function DecimalValue(s: string): nat
    requires IsDigits(s)
    decreases |s|
  {
    if s == [] then 0 else DecimalValue(s[..|s| - 1]) * 10 + DigitValue(s[|s| - 1])
  }

  lemma {:induction false} DecimalRoundTrip(n: nat)
    ensures DecimalValue(Decimal(n)) == n
    decreases n
  {
    if n >= 10 {
      DecimalRoundTrip(n / 10);
      var s := Decimal(n);
      assert s[..|s| - 1] == Decimal(n / 10);
    }
  }

  /** The message thrown on line 58. */
  function CountError(count: nat): string
  {
    "The number of app-slaves requested was: " + Decimal(count)
      + ". The supported number of Test Sessions is from 1-12 inclusive."
  }

  /** Lines 58 and 63: a count outside 1-12 is refused; otherwise one request asks for exactly that many. */
  function RequestFor(items: seq<Item>): (r: Result<PutRequest, string>)
    ensures r.Failure? <==> |items| < MinSlaves || |items| > MaxSlaves
    ensures r.Failure? ==> r.error == CountError(|items|)
    ensures r.Success? ==> r.value.num == |items| && MinSlaves <= r.value.num <= MaxSlaves
    ensures r.Success? ==> r.value.path == "/services" && r.value.service == "zap" && r.value.project == "app-slave"
  {
    if |items| < MinSlaves || |items| > MaxSlaves then
      Failure(CountError(|items|))
    else
      Success(PutRequest("/services", "zap", "app-slave", |items|))
  }

  /** Line 70: the container name of item i, `appslave_zap_` followed by i + 1. */
  function ContainerName(i: nat): (name: string)
    ensures |name| > |NamePrefix| && name[..|NamePrefix|] == NamePrefix
    ensures IsDigits(name[|NamePrefix|..])
  {
    NamePrefix + Decimal(i + 1)
  }

  /** The number after the prefix reads back as i + 1. */
  lemma ContainerNameNumber(i: nat)
    ensures DecimalValue(ContainerName(i)[|NamePrefix|..]) == i + 1
  {
    assert ContainerName(i)[|NamePrefix|..] == Decimal(i + 1);
    DecimalRoundTrip(i + 1);
  }

  /** Two items get the same container name only if they are at the same position. */
  lemma ContainerNamesDistinct(i: nat, j: nat)
    ensures ContainerName(i) == ContainerName(j) <==> i == j
  {
    ContainerNameNumber(i);
    ContainerNameNumber(j);
  }

  /** Lines 68-72: a shallow copy of every item, in order, with its container name set. */
  function Decorate(items: seq<Item>): (r: seq<Item>)
    ensures |r| == |items|
    ensures forall i :: 0 <= i < |r| ==> NameField in r[i] && r[i][NameField] == Str(ContainerName(i))
    ensures forall i :: 0 <= i < |r| ==> r[i].Keys == items[i].Keys + {NameField}
    ensures forall i, k :: 0 <= i < |r| && k in items[i] && k != NameField ==> r[i][k] == items[i][k]
  {
    seq(|items|, i requires 0 <= i < |items| => items[i][NameField := Str(ContainerName(i))])
  }

  /** No two decorated items share a container name. */
  lemma DecoratedNamesDistinct(items: seq<Item>, i: nat, j: nat)
    requires i < |items| && j < |items| && i != j
    ensures Decorate(items)[i][NameField] != Decorate(items)[j][NameField]
  {
    ContainerNamesDistinct(i, j);
  }

  /** Lines 66-74: the error is set exactly when the wait's first slot is empty; the items are always decorated. */
  function Complete<R>(items: seq<Item>, resolved: seq<Option<R>>): (r: DeployResult)
    ensures r.error.Some? <==> |resolved| == 0 || resolved[0].None?
    ensures r.error.Some? ==> r.error.value == TimeoutMessage
    ensures |r.items| == |items|
    ensures forall i :: 0 <= i < |items| ==> NameField in r.items[i] && r.items[i][NameField] == Str(ContainerName(i))
    ensures r.items == Decorate(items)
  {
    var error := if |resolved| == 0 || resolved[0].None? then Some(TimeoutMessage) else None;
    DeployResult(Decorate(items), error)
  }

  /** Lines 53-75, given the state of the wait on line 64. */
  function Deploy<R, E>(items: seq<Item>, wait: PromiseAllTimeout.Outcome<R, E>): (d: Deployment<E>)
    ensures d.Invalid? <==> |items| < MinSlaves || |items| > MaxSlaves
    ensures d.Invalid? ==> d.message == CountError(|items|)
    ensures !d.Invalid? ==> (d.Waiting? <==> !wait.Settled())
    ensures d.Waiting? ==> d.request.num == |items|
    ensures d.Waiting? ==>
      d.request.path == "/services" && d.request.service == "zap" && d.request.project == "app-slave"
    ensures !d.Invalid? && wait.Rejected? ==> d.Failed? && d.error == wait.error
    ensures !d.Invalid? && wait.Resolved? ==>
      && d.Done?
      && |d.result.items| == |items|
      && d.result.items == Decorate(items)
      && (d.result.error.Some? <==> |wait.values| == 0 || wait.values[0].None?)
  {
    match RequestFor(items)
    case Failure(message) => Invalid(message)
    case Success(request) =>
      match wait
      case Resolved(values) => Done(Complete(items, values))
      case Rejected(error) => Failed(error)
      case _ => Waiting(request)
  }

  /**
   * Line 64 driven by any order of the response and the timer: the wait never hangs on a
   * thrown timer, and once it resolves, the error is set only if the timer fired, and left
   * unset only if the request was fulfilled.
   */
  lemma DeployOverWait<R, E>(items: seq<Item>, evs: seq<PromiseAllTimeout.Event<R, E>>)
    requires MinSlaves <= |items| <= MaxSlaves
    requires PromiseAllTimeout.Admissible(PromiseAllTimeout.Init(1, true), evs)
    ensures var wait := PromiseAllTimeout.Run(PromiseAllTimeout.Init(1, true), evs).outcome;
      && !wait.TimerThrew?
      && (wait.Resolved? ==>
            && Deploy(items, wait).Done?
            && (Deploy(items, wait).result.error.Some? ==>
                  exists k :: 0 <= k < |evs| && evs[k].TimerFired?)
            && (Deploy(items, wait).result.error.None? ==>
                  exists v :: PromiseAllTimeout.Succeeded(0, v) in evs))
  {
    var s0: PromiseAllTimeout.State<R, E> := PromiseAllTimeout.Init(1, true);
    var s := PromiseAllTimeout.Run(s0, evs);
    PromiseAllTimeout.RunPreservesInv(s0, evs);
    PromiseAllTimeout.RunTimerFlag(s0, evs);
    if s.outcome.Resolved? {
      var values := s.outcome.values;
      if values[0].None? {
        assert PromiseAllTimeout.Filled(values) == 0;
      } else {
        PromiseAllTimeout.RunSlots(s0, evs, 0, values[0].value);
      }
    }
  }
}
