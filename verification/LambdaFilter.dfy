/** The filter object of the source, proved to follow LambdaModel callback by callback. */
module LambdaFilter {
  import opened Common
  import opened LambdaModel

  /** The decoder callbacks: the buffer and the effects the filter asks for. */
  class DecoderCallbacks {
    var buffered: string
    var upstream: Option<string>
    var replies: nat

    constructor ()
      ensures buffered == "" && upstream == None && replies == 0
    {
      buffered, upstream, replies := "", None, 0;
    }

    method SendLocalReply()
      modifies `replies
      ensures replies == old(replies) + 1
    {
      replies := replies + 1;
    }

    method AddDecodedData(data: string)
      modifies `buffered
      ensures buffered == old(buffered) + data
    {
      buffered := buffered + data;
    }

    method ContinueDecoding()
      modifies `upstream
      ensures upstream == Some(buffered)
    {
      upstream := Some(buffered);
    }
  }

  class AwsLambdaFilter {
    const callbacks: DecoderCallbacks
    var protocolOptions: bool
    var functionOnRoute: Option<Function>
    var state: State
    var stopped: bool
    var endStream: bool
    var hasBody: bool
    var context: bool
    var keys: Option<AwsCreds>
    var hashed: string
    var signatures: seq<Signature>
    var contentLength: Option<nat>

    ghost function View(): Filter
      reads this, callbacks
    {
      Filter(protocolOptions, functionOnRoute, state, stopped, endStream, hasBody, context,
             keys, hashed, signatures, contentLength, callbacks.buffered, callbacks.upstream, callbacks.replies)
    }

    constructor (callbacks: DecoderCallbacks)
      requires callbacks.buffered == "" && callbacks.upstream == None && callbacks.replies == 0
      ensures this.callbacks == callbacks && View() == FreshFilter
    {
      this.callbacks := callbacks;
      protocolOptions, functionOnRoute, state := false, None, Init;
      stopped, endStream, hasBody, context := false, false, false, false;
      keys, hashed, signatures, contentLength := None, "", [], None;
    }

    method HandleDefaultBody()
      requires functionOnRoute.Some?
      modifies this`contentLength, this`hashed, callbacks`buffered
      ensures View() == LambdaModel.HandleDefaultBody(old(View()))
    {
      if !hasBody && functionOnRoute.value.defaultBody.Some? {
        var data := functionOnRoute.value.defaultBody.value;
        contentLength := Some(|data|);
        hashed := hashed + data;
        callbacks.AddDecodedData(data);
      }
    }

    method TransformRequest()
      requires functionOnRoute.Some? && functionOnRoute.value.transformer.Some?
      modifies this`contentLength, this`hashed, callbacks`buffered
      ensures View() == LambdaModel.TransformRequest(old(View()))
    {
      var t := functionOnRoute.value.transformer.value;
      if !hasBody {
        var body := t("");
        contentLength := Some(|body|);
        hashed := hashed + body;
        callbacks.AddDecodedData(body);
        return;
      }
      callbacks.buffered := t(callbacks.buffered);
      contentLength := Some(|callbacks.buffered|);
      hashed := hashed + callbacks.buffered;
    }

    method FinalizeRequest()
      requires functionOnRoute.Some?
      modifies this, callbacks
      ensures View() == LambdaModel.FinalizeRequest(old(View()))
    {
      HandleDefaultBody();
      if functionOnRoute.value.transformer.Some? {
        TransformRequest();
      }
      signatures := signatures + [Signature(keys, hashed)];
    }

    method OnSuccess(credentials: AwsCreds)
      requires stopped ==> functionOnRoute.Some?
      modifies this, callbacks
      ensures View() == LambdaModel.OnSuccess(old(View()), credentials)
    {
      context := false;
      state := Complete;
      if credentials.accessKey.None? || credentials.secretKey.None? {
        state := Responded;
        callbacks.SendLocalReply();
        return;
      }
      keys := Some(credentials);
      if stopped {
        if endStream {
          FinalizeRequest();
          callbacks.ContinueDecoding();
        }
        stopped := false;
      }
    }

    method OnFailure()
      modifies this, callbacks
      ensures View() == LambdaModel.OnFailure(old(View()))
    {
      context := false;
      state := Responded;
      callbacks.SendLocalReply();
    }

    method DecodeHeaders(route: Route, endOfStream: bool, lookup: Lookup) returns (status: Status)
      requires View() == FreshFilter
      modifies this, callbacks
      ensures (View(), status) == LambdaModel.DecodeHeaders(old(View()), route, endOfStream, lookup)
    {
      if route.NotAws? {
        return Continue;
      }
      protocolOptions := true;
      endStream := endOfStream;
      functionOnRoute := route.fn;
      if functionOnRoute.None? {
        state := Responded;
        callbacks.SendLocalReply();
        return StopIteration;
      }
      state := Calling;
      match lookup {
        case Found(c) => OnSuccess(c);
        case NotFound => OnFailure();
        case Later => context := true;
      }
      if state == Responded {
        return StopIteration;
      }
      if context && state != Complete {
        stopped := true;
        return StopIteration;
      }
      if endOfStream {
        FinalizeRequest();
        return Continue;
      }
      return StopIteration;
    }

    method DecodeData(data: string, endOfStream: bool) returns (status: Status, rest: string)
      modifies this, callbacks
      ensures (View(), status, rest) == LambdaModel.DecodeData(old(View()), data, endOfStream)
    {
      rest := data;
      if functionOnRoute.None? {
        return Continue, rest;
      }
      endStream := endOfStream;
      if |data| != 0 {
        hasBody := true;
      }
      if functionOnRoute.value.transformer.None? {
        hashed := hashed + data;
      }
      if state == Calling {
        return StopIterationAndBuffer, rest;
      } else if state == Responded {
        return StopIterationNoBuffer, rest;
      }
      if endOfStream {
        if hasBody && functionOnRoute.value.transformer.Some? {
          callbacks.AddDecodedData(data);
          rest := "";
        }
        FinalizeRequest();
        return Continue, rest;
      }
      return StopIterationAndBuffer, rest;
    }

    method DecodeTrailers() returns (status: Status)
      modifies this, callbacks
      ensures (View(), status) == LambdaModel.DecodeTrailers(old(View()))
    {
      endStream := true;
      if state == Calling {
        return StopIteration;
      } else if state == Responded {
        return StopIteration;
      }
      if functionOnRoute.Some? {
        FinalizeRequest();
      }
      return Continue;
    }

    /** Whether the context has to be cancelled. */
    method OnDestroy() returns (cancel: bool)
      modifies this
      ensures View() == LambdaModel.OnDestroy(old(View())) && cancel == old(context)
    {
      state := Destroyed;
      cancel := context;
    }
  }
}
