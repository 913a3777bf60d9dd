/** The `subscription` slice: whether the viewer follows the open channel, the
    channels the viewer follows, the channel's followers and the request flags. */
module SubscriptionSlice {
  import opened Common

  /** The three subscription requests; their pending and rejected cases are identical. */
  datatype SubscriptionRequest = ToggleSubscription | GetSubscribedChannels | GetChannelSubscribers

  /** `payload || []` for a list payload that may be null or undefined. */
  function ListOrEmpty(payload: Option<seq<Value>>): (r: seq<Value>)
    ensures payload.Some? ==> r == payload.value
    ensures payload.None? ==> r == []
  {
    payload.GetOr([])
  }

  class Slice {
    var subscribedChannels: seq<Value>
    var channelSubscribers: seq<Value>
    /** Declared `boolean`, but the toggle stores whatever its request
        returns, which is the whole response envelope; so it is a value. */
    var isSubscribed: Value
    var loading: bool
    var error: Option<string>

    constructor ()
      ensures subscribedChannels == [] && channelSubscribers == []
      ensures isSubscribed == Bool(false) && !loading && error == None
    {
      subscribedChannels := [];
      channelSubscribers := [];
      isSubscribed := Bool(false);
      loading := false;
      error := None;
    }

    /** `setSubscriptionState`: only the flag is set, to the boolean the
        watch page computes. */
    method SetSubscriptionState(payload: bool)
      modifies this`isSubscribed
      ensures isSubscribed == Bool(payload)
    {
      isSubscribed := Bool(payload);
    }

    /** Any pending case: loading starts and the error is cleared. */
    method Pending(request: SubscriptionRequest)
      modifies this`loading, this`error
      ensures loading && error == None
    {
      loading := true;
      error := None;
    }

    /** Any rejected case: the lists and the flag stay as they were. */
    method Rejected(request: SubscriptionRequest, payload: Option<string>)
      modifies this`loading, this`error
      ensures !loading && error == payload
    {
      loading := false;
      error := payload;
    }

    /** toggleSubscription fulfilled: the flag becomes the payload, as it
        comes from the request and not necessarily a boolean. */
    method ToggleSubscriptionFulfilled(payload: Value)
      modifies this`loading, this`isSubscribed
      ensures !loading && isSubscribed == payload
    {
      loading := false;
      isSubscribed := payload;
    }

    /** getSubscribedChannels fulfilled: its own list is replaced, by `[]`
        when the payload is missing. */
    method GetSubscribedChannelsFulfilled(payload: Option<seq<Value>>)
      modifies this`loading, this`subscribedChannels
      ensures !loading && subscribedChannels == ListOrEmpty(payload)
    {
      loading := false;
      subscribedChannels := ListOrEmpty(payload);
    }

    /** getChannelSubscribers fulfilled: its own list is replaced, by `[]`
        when the payload is missing. */
    method GetChannelSubscribersFulfilled(payload: Option<seq<Value>>)
      modifies this`loading, this`channelSubscribers
      ensures !loading && channelSubscribers == ListOrEmpty(payload)
    {
      loading := false;
      channelSubscribers := ListOrEmpty(payload);
    }
  }
}
