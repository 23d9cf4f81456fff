/** The AWS Lambda filter as a value: one function per callback of aws_lambda_filter.cc. */
module LambdaModel {
  import opened Common

  datatype AwsCreds = AwsCreds(accessKey: Option<string>, secretKey: Option<string>, sessionToken: Option<string>)

  predicate Usable(c: AwsCreds) {
    c.accessKey.Some? && c.secretKey.Some?
  }

  /** The function a route names: its default body and its request transformer. */
  datatype Function = Function(defaultBody: Option<string>, transformer: Option<string -> string>)

  /** NotAws: no protocol options for the cluster.  An AWS route may still name no function. */
  datatype Route = NotAws | Aws(fn: Option<Function>)

  datatype State = Init | Calling | Responded | Complete | Destroyed

  /** A signed request: the keys used, and the bytes fed to the payload hash. */
  datatype Signature = Signature(keys: Option<AwsCreds>, payload: string)

  datatype Status = Continue | StopIteration | StopIterationAndBuffer | StopIterationNoBuffer

  /**
   * The filter's fields, the authenticator's input, and what the filter has asked
   * of its decoder callbacks: the decoding buffer, what went upstream, and the
   * number of local replies.
   */
  datatype Filter = Filter(
    protocolOptions: bool, fn: Option<Function>, state: State,
    stopped: bool, endStream: bool, hasBody: bool, context: bool,
    keys: Option<AwsCreds>, hashed: string, signatures: seq<Signature>, contentLength: Option<nat>,
    buffered: string, upstream: Option<string>, replies: nat)

  /** What getCredentials does: call back at once, one way or the other, or hand out a context. */
  datatype Lookup = Found(creds: AwsCreds) | NotFound | Later

  const FreshFilter := Filter(false, None, Init, false, false, false, false, None, "", [], None, "", None, 0)

  function Reply(f: Filter): Filter {
    f.(state := Responded, replies := f.replies + 1)
  }

  function HandleDefaultBody(f: Filter): Filter
    requires f.fn.Some?
  {
    if !f.hasBody && f.fn.value.defaultBody.Some? then
      var d := f.fn.value.defaultBody.value;
      f.(contentLength := Some(|d|), hashed := f.hashed + d, buffered := f.buffered + d)
    else f
  }

  function TransformRequest(f: Filter): Filter
    requires f.fn.Some? && f.fn.value.transformer.Some?
  {
    var t := f.fn.value.transformer.value;
    if !f.hasBody then
      var b := t("");
      f.(contentLength := Some(|b|), hashed := f.hashed + b, buffered := f.buffered + b)
    else
      var b := t(f.buffered);
      f.(contentLength := Some(|b|), hashed := f.hashed + b, buffered := b)
  }

  function FinalizeRequest(f: Filter): Filter
    requires f.fn.Some?
  {
    var f1 := HandleDefaultBody(f);
    var f2 := if f.fn.value.transformer.Some? then TransformRequest(f1) else f1;
    f2.(signatures := f2.signatures + [Signature(f2.keys, f2.hashed)])
  }

  function OnSuccess(f: Filter, c: AwsCreds): Filter
    requires f.stopped ==> f.fn.Some?
  {
    var f1 := f.(context := false, state := Complete);
    if !Usable(c) then Reply(f1)
    else
      var f2 := f1.(keys := Some(c));
      if f2.stopped && f2.endStream then
        var f3 := FinalizeRequest(f2);
        f3.(upstream := Some(f3.buffered), stopped := false)
      else f2.(stopped := false)
  }

  function OnFailure(f: Filter): Filter {
    Reply(f.(context := false))
  }

  function DecodeHeaders(f: Filter, route: Route, endStream: bool, lookup: Lookup): (Filter, Status)
    requires f == FreshFilter
  {
    match route
    case NotAws => (f, Continue)
    case Aws(None) => (Reply(f.(protocolOptions := true, endStream := endStream)), StopIteration)
    case Aws(Some(fn)) =>
      var f1 := f.(protocolOptions := true, endStream := endStream, fn := Some(fn), state := Calling);
      var f2 :=
        match lookup
        case Found(c) => OnSuccess(f1, c)
        case NotFound => OnFailure(f1)
        case Later => f1.(context := true);
      if f2.state == Responded then (f2, StopIteration)
      else if f2.context then (f2.(stopped := true), StopIteration)
      else if endStream then (FinalizeRequest(f2), Continue)
      else (f2, StopIteration)
  }

  predicate Transforms(f: Filter) {
    f.fn.Some? && f.fn.value.transformer.Some?
  }

  /** The result's last part: what is left of `data` once part of it may have been moved to the buffer. */
  function DecodeData(f: Filter, data: string, endStream: bool): (Filter, Status, string) {
    if f.fn.None? then (f, Continue, data)
    else
      var f1 := f.(endStream := endStream, hasBody := f.hasBody || data != "");
      var f2 := if Transforms(f1) then f1 else f1.(hashed := f1.hashed + data);
      if f2.state == Calling then (f2, StopIterationAndBuffer, data)
      else if f2.state == Responded then (f2, StopIterationNoBuffer, data)
      else if endStream then
        if f2.hasBody && Transforms(f2) then (FinalizeRequest(f2.(buffered := f2.buffered + data)), Continue, "")
        else (FinalizeRequest(f2), Continue, data)
      else (f2, StopIterationAndBuffer, data)
  }

  function DecodeTrailers(f: Filter): (Filter, Status) {
    var f1 := f.(endStream := true);
    if f1.state == Calling || f1.state == Responded then (f1, StopIteration)
    else if f1.fn.Some? then (FinalizeRequest(f1), Continue)
    else (f1, Continue)
  }

  /** onDestroy; the context, if any, is cancelled by the caller of this function. */
  function OnDestroy(f: Filter): Filter {
    f.(state := Destroyed)
  }

  // ---------- What Envoy does with a returned status ----------

  /** Buffered data goes upstream ahead of the data at hand. */
  function Deliver(f: Filter, s: Status, rest: string): Filter {
    match s
    case Continue => f.(buffered := f.buffered + rest, upstream := Some(f.buffered + rest))
    case StopIterationAndBuffer => f.(buffered := f.buffered + rest)
    case _ => f
  }
}
