/** Subscriber options (hooks/broadcast/options.go) and what GetStateChan makes of them. */
module BroadcastOptions {
  import opened Basics
  import opened BroadcastProtocol

  /** `WithCustomChannel(None)` is a nil channel. */
  datatype SubOption = WithBufferSize(size: int) | WithCustomChannel(channel: Option<nat>) | WithTimeout(timeout: int)

  /** The option target: each option overwrites its fields. */
  class Config {
    var channel: Option<Origin>
    var externalChannel: bool
    var timeout: int

    constructor ()
      ensures channel == None && !externalChannel && timeout == 0
    {
      channel, externalChannel, timeout := None, false, 0;
    }

    method Apply(o: SubOption)
      modifies this
      ensures o.WithBufferSize? ==>
        && channel == Some(Owned(if o.size > 0 then o.size else 0)) && !externalChannel && timeout == old(timeout)
      ensures o.WithCustomChannel? ==> (externalChannel && timeout == old(timeout)
        && channel == if o.channel.Some? then Some(External(o.channel.value)) else None)
      ensures o.WithTimeout? ==>
        timeout == o.timeout && channel == old(channel) && externalChannel == old(externalChannel)
    {
      match o
      case WithBufferSize(size) =>
        channel, externalChannel := Some(Owned(if size > 0 then size else 0)), false;
      case WithCustomChannel(ch) =>
        channel, externalChannel := if ch.Some? then Some(External(ch.value)) else None, true;
      case WithTimeout(t) =>
        timeout := t;
    }
  }

  function ModeOf(timeout: int): Mode {
    if timeout < 0 then Guaranteed else if timeout > 0 then Timed else BestEffort
  }

  /** Option `k` is the last that names a channel. */
  ghost predicate LastChannel(opts: seq<SubOption>, k: int) {
    && 0 <= k < |opts| && !opts[k].WithTimeout? && forall j :: k < j < |opts| ==> opts[j].WithTimeout?
  }

  ghost predicate LastTimeout(opts: seq<SubOption>, k: int) {
    && 0 <= k < |opts| && opts[k].WithTimeout? && forall j :: k < j < |opts| ==> !opts[j].WithTimeout?
  }

  /** The last channel option decides ownership. Only a non-nil custom channel is the
      caller's; a nil one, or none at all, falls back to an owned channel of capacity one.
      `external` is the flag the subscription keeps, and it always tells whose channel it is. */
  method Resolve(opts: seq<SubOption>) returns (origin: Origin, mode: Mode, external: bool)
    ensures external <==> origin.External?
    ensures forall c ::
      origin == External(c) <==> exists k :: LastChannel(opts, k) && opts[k] == WithCustomChannel(Some(c))
    ensures forall k | LastChannel(opts, k) && opts[k].WithBufferSize? ::
      origin == Owned(if opts[k].size > 0 then opts[k].size else 0)
    ensures forall k | LastChannel(opts, k) && opts[k] == WithCustomChannel(None) :: origin == Owned(1)
    ensures (forall k :: !LastChannel(opts, k)) ==> origin == Owned(1)
    ensures (forall k | LastChannel(opts, k) :: !opts[k].WithBufferSize?) ==> external || origin == Owned(1)
    ensures forall k | LastTimeout(opts, k) :: mode == ModeOf(opts[k].timeout)
    ensures (forall k :: !LastTimeout(opts, k)) ==> mode == BestEffort
    ensures forall k | LastTimeout(opts, k) ::
      (mode == Guaranteed <==> opts[k].timeout < 0) && (mode == Timed <==> opts[k].timeout > 0)
  {
    var config := new Config();
    ghost var atChannel, atTimeout := -1, -1;
    for i := 0 to |opts|
      invariant fresh(config)
      invariant -1 <= atChannel < i && -1 <= atTimeout < i
      invariant forall j :: 0 <= j < i && j > atChannel ==> opts[j].WithTimeout?
      invariant forall j :: 0 <= j < i && j > atTimeout ==> !opts[j].WithTimeout?
      invariant if atChannel < 0 then config.channel == None && !config.externalChannel
        else !opts[atChannel].WithTimeout? && match opts[atChannel]
          case WithBufferSize(n) => config.channel == Some(Owned(if n > 0 then n else 0)) && !config.externalChannel
          case WithCustomChannel(c) =>
            config.externalChannel && config.channel == (if c.Some? then Some(External(c.value)) else None)
          case WithTimeout(_) => false
      invariant if atTimeout < 0 then config.timeout == 0 else
        opts[atTimeout].WithTimeout? && config.timeout == opts[atTimeout].timeout
    {
      config.Apply(opts[i]);
      if opts[i].WithTimeout? { atTimeout := i; } else { atChannel := i; }
    }
    external := config.externalChannel;
    if config.channel.Some? {
      origin := config.channel.value;
    } else {
      origin, external := Owned(1), false;
    }
    mode := ModeOf(config.timeout);
    assert atChannel >= 0 ==> LastChannel(opts, atChannel);
    assert atTimeout >= 0 ==> LastTimeout(opts, atTimeout);
    assert forall k | LastChannel(opts, k) :: k == atChannel;
    assert forall k | LastTimeout(opts, k) :: k == atTimeout;
  }
}
