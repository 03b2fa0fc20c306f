/** The fetch pipeline: an ordered chain of stages, each of which either passes a
    value on or fails, where the first failure ends the chain. */
module Pipeline {
  import opened Js

  /** One step of the `|>` / `then` chain. */
  type Stage = Value -> Result<Value>

  const NotOkMessage: string := "Response was not OK"

  /** The envelope check: only `status === "OK"` passes, and the envelope is
      passed on untouched. */
  function CheckStatus(data: Value): (r: Result<Value>)
    ensures r.Success? <==> Get(data, "status") == Success(Str("OK"))
    ensures r.Success? ==> r.value == data
    ensures r.Failure? && !Nullish(data) ==> r.error == Error(NotOkMessage)
  {
    var status :- Get(data, "status");
    if status != Str("OK") then Failure(Error(NotOkMessage)) else Success(data)
  }

  /** `({ data }) => data` */
  function ProjectData(response: Value): (r: Result<Value>)
    ensures r.Failure? <==> Nullish(response)
    ensures response.Obj? && "data" in response.props ==> r == Success(response.props["data"])
    ensures response.Obj? && "data" !in response.props ==> r == Success(Undefined)
  {
    Get(response, "data")
  }

  /** The composable-fetch stages, which are library code and stay opaque:
      each is an arbitrary function that either produces the next value or fails. */
  datatype Library = Library(
    withHeader: Stage,          // withHeader("Accept", "application/json")
    withEncodedBody: Stage,     // withEncodedBody(JSON.stringify)
    fetch1: Stage,              // fetch1(fetch): the network round trip
    withSafe204: Stage,
    decodeJSONResponse: Stage,
    checkStatus: Stage)         // the library's transport-status check

  /** Runs the stages in order; a failing stage's error is the chain's result. */
  function Chain(stages: seq<Stage>, x: Value): Result<Value>
    decreases |stages|
  {
    if |stages| == 0 then Success(x)
    else
      match stages[0](x)
      case Failure(e) => Failure(e)
      case Success(y) => Chain(stages[1..], y)
  }

  /** How many stages the chain invokes on `x`: up to and including the first
      that fails. */
  function Invoked(stages: seq<Stage>, x: Value): (n: nat)
    ensures n <= |stages|
    decreases |stages|
  {
    if |stages| == 0 then 0
    else
      match stages[0](x)
      case Failure(_) => 1
      case Success(y) => 1 + Invoked(stages[1..], y)
  }

  function LibraryStages(lib: Library): seq<Stage> {
    [lib.withHeader, lib.withEncodedBody, lib.fetch1, lib.withSafe204,
     lib.decodeJSONResponse, lib.checkStatus]
  }

  /** The stages of `fetchJSON`, in the order the source lists them. */
  function FetchStages(lib: Library): seq<Stage> {
    LibraryStages(lib) + [ProjectData, CheckStatus]
  }

  function FetchJSON(lib: Library, request: Value): Result<Value> {
    Chain(FetchStages(lib), request)
  }

  /** The decoded response that the library stages hand to the projection. */
  function Decoded(lib: Library, request: Value): Result<Value> {
    Chain(LibraryStages(lib), request)
  }

  /** Running `a + b` is running `a`, then `b` on its value unless `a` failed. */
  lemma {:induction false} ChainAppend(a: seq<Stage>, b: seq<Stage>, x: Value)
    ensures Chain(a + b, x) ==
      match Chain(a, x)
      case Failure(e) => Failure(e)
      case Success(y) => Chain(b, y)
    decreases |a|
  {
    if |a| == 0 {
      assert a + b == b;
    } else {
      assert (a + b)[0] == a[0];
      assert (a + b)[1..] == a[1..] + b;
      match a[0](x)
      case Failure(_) =>
      case Success(y) => ChainAppend(a[1..], b, y);
    }
  }

  /** The chain invokes a prefix of its stages: all of them when it succeeds;
      otherwise every stage before the last invoked one succeeded, and the last
      invoked one failed with the chain's error. */
  lemma {:induction false} FirstFailure(stages: seq<Stage>, x: Value)
    ensures Chain(stages, x).Success? ==> Invoked(stages, x) == |stages|
    ensures Chain(stages, x).Failure? ==>
      var k := Invoked(stages, x);
      && 0 < k
      && Chain(stages[..k - 1], x).Success?
      && stages[k - 1](Chain(stages[..k - 1], x).value) == Chain(stages, x)
    decreases |stages|
  {
    if |stages| > 0 {
      match stages[0](x)
      case Failure(_) =>
        assert stages[..0] == [];
      case Success(y) =>
        FirstFailure(stages[1..], y);
        if Chain(stages, x).Failure? {
          var k := Invoked(stages, x);
          assert stages[..k - 1][0] == stages[0];
          assert stages[..k - 1][1..] == stages[1..][..k - 2];
          assert stages[k - 1] == stages[1..][k - 2];
        }
    }
  }

  /** Once a stage fails, what follows it is never consulted: replacing every
      stage after the failing one leaves the result unchanged. */
  lemma LaterStagesIgnored(stages: seq<Stage>, x: Value, other: seq<Stage>)
    requires Chain(stages, x).Failure?
    ensures Chain(stages[..Invoked(stages, x)] + other, x) == Chain(stages, x)
  {
    FirstFailure(stages, x);
    var k := Invoked(stages, x);
    var before := stages[..k - 1];
    assert stages[..k] == before + [stages[k - 1]];
    ChainAppend(before, [stages[k - 1]], x);
    ChainAppend(stages[..k], other, x);
  }

  /** `fetchJSON` is the library chain, then the `data` projection, then the
      envelope check. */
  lemma FetchJSONStructure(lib: Library, request: Value)
    ensures FetchJSON(lib, request) ==
      match Decoded(lib, request)
      case Failure(e) => Failure(e)
      case Success(response) =>
        match ProjectData(response)
        case Failure(e) => Failure(e)
        case Success(data) => CheckStatus(data)
  {
    var tail: seq<Stage> := [ProjectData, CheckStatus];
    ChainAppend(LibraryStages(lib), tail, request);
    match Decoded(lib, request)
    case Failure(_) =>
    case Success(response) =>
      assert tail[0] == ProjectData;
      assert tail[1..] == [CheckStatus];
      assert tail[1..][1..] == [];
      match ProjectData(response)
      case Failure(_) =>
      case Success(data) =>
        assert Chain([CheckStatus], data) == CheckStatus(data);
  }

  /** `fetchJSON` resolves with `v` exactly when every library stage succeeded,
      `v` is the decoded response's `data`, and `v.status` is "OK". */
  lemma FetchJSONSuccess(lib: Library, request: Value, v: Value)
    ensures FetchJSON(lib, request) == Success(v) <==>
      && Decoded(lib, request).Success?
      && ProjectData(Decoded(lib, request).value) == Success(v)
      && Get(v, "status") == Success(Str("OK"))
  {
    FetchJSONStructure(lib, request);
  }

  /** A `data` whose status is not "OK" fails the chain with "Response was not
      OK" even though every earlier stage succeeded; all eight stages ran. */
  lemma FetchJSONNotOk(lib: Library, request: Value)
    requires Decoded(lib, request).Success?
    requires ProjectData(Decoded(lib, request).value).Success?
    requires !Nullish(ProjectData(Decoded(lib, request).value).value)
    requires Get(ProjectData(Decoded(lib, request).value).value, "status") != Success(Str("OK"))
    ensures FetchJSON(lib, request) == Failure(Error(NotOkMessage))
    ensures Invoked(FetchStages(lib), request) == |FetchStages(lib)|
  {
    FetchJSONStructure(lib, request);
    var tail: seq<Stage> := [ProjectData, CheckStatus];
    InvokedAppend(LibraryStages(lib), tail, request);
    assert tail[0] == ProjectData;
    assert tail[1..] == [CheckStatus];
    assert tail[1..][1..] == [];
  }

  /** When a library stage fails, that failure is the result and neither the
      projection nor the envelope check runs. */
  lemma FetchJSONLibraryFailure(lib: Library, request: Value)
    requires Decoded(lib, request).Failure?
    ensures FetchJSON(lib, request) == Decoded(lib, request)
    ensures Invoked(FetchStages(lib), request) <= |LibraryStages(lib)|
  {
    FetchJSONStructure(lib, request);
    var tail: seq<Stage> := [ProjectData, CheckStatus];
    InvokedAppend(LibraryStages(lib), tail, request);
  }

  /** Invoking `a + b` invokes the stages of `a` that run, and those of `b`
      only when all of `a` succeeded. */
  lemma {:induction false} InvokedAppend(a: seq<Stage>, b: seq<Stage>, x: Value)
    ensures Invoked(a + b, x) ==
      match Chain(a, x)
      case Failure(_) => Invoked(a, x)
      case Success(y) => |a| + Invoked(b, y)
    decreases |a|
  {
    if |a| == 0 {
      assert a + b == b;
    } else {
      assert (a + b)[0] == a[0];
      assert (a + b)[1..] == a[1..] + b;
      match a[0](x)
      case Failure(_) =>
      case Success(y) => InvokedAppend(a[1..], b, y);
    }
  }
}
