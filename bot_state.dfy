/**
 * The bot process: the configuration globals held in one object, the
 * command handlers that assign them in place, and the message handler that
 * reads them. Each method is proved against the pure state machine
 * `Commands.Apply` and the relay function `Relay.Handle`.
 */
module BotState {
  import opened Wrappers
  import opened Python
  import opened Commands
  import opened Relay

  class Bot {
    /** `source_channel_ids`, `destination_channel_id` and `copying_enabled`. */
    var config: Config

    /** The globals as initialised at import time. */
    constructor ()
      ensures config == Initial
    {
      config := Config([], None, false);
    }

    /** `/setsource id...`: replace the source list, or report usage if a token is not an integer. */
    method SetSource(args: seq<string>) returns (reply: Reply)
      modifies this
      ensures Step(config, reply) == Apply(old(config), Command.SetSource(args))
      ensures reply.Err? ==> config == old(config)
    {
      var ids := ParseIds(args);
      if ids.None? {
        reply := Err(SourceUsage);
      } else {
        config := config.(sources := ids.value);
        reply := Ok(SourcesSet(ids.value));
      }
    }

    /** `/setdestination id`: store the first token as the destination, or report usage. */
    method SetDestination(args: seq<string>) returns (reply: Reply)
      modifies this
      ensures Step(config, reply) == Apply(old(config), Command.SetDestination(args))
      ensures reply.Err? <==> args == [] || ParseInt(args[0]).None?
    {
      if args == [] {
        reply := Err(DestinationUsage);
        return;
      }
      var id := ParseInt(args[0]);
      if id.None? {
        reply := Err(DestinationUsage);
      } else {
        config := config.(destination := id);
        reply := Ok(DestinationSet(id.value));
      }
    }

    /** `/startcopy`: enable copying when `check_channel_ids` holds. */
    method StartCopy() returns (reply: Reply)
      modifies this
      ensures Step(config, reply) == Apply(old(config), Command.StartCopy)
      ensures config.enabled == (old(config.enabled) || ChannelIdsSet(old(config)))
    {
      if ChannelIdsSet(config) {
        config := config.(enabled := true);
        reply := Ok(Started);
      } else {
        reply := Err(ChannelIdsNotSet);
      }
    }

    /** `/stopcopy`. */
    method StopCopy() returns (reply: Reply)
      modifies this
      ensures Step(config, reply) == Apply(old(config), Command.StopCopy)
      ensures config == old(config).(enabled := false)
    {
      config := config.(enabled := false);
      reply := Ok(Stopped);
    }

    /** `/removesource`. */
    method RemoveSource() returns (reply: Reply)
      modifies this
      ensures Step(config, reply) == Apply(old(config), Command.RemoveSource)
      ensures config == old(config).(sources := [])
    {
      config := config.(sources := []);
      reply := Ok(SourcesRemoved);
    }

    /** `/removedestination`. */
    method RemoveDestination() returns (reply: Reply)
      modifies this
      ensures Step(config, reply) == Apply(old(config), Command.RemoveDestination)
      ensures config == old(config).(destination := None)
    {
      config := config.(destination := None);
      reply := Ok(DestinationRemoved);
    }

    /**
     * `handle_messages`: relay one message under the current configuration.
     * It changes no state, so a failed send cannot affect later messages.
     */
    method HandleMessage(m: Message, sendFails: bool) returns (d: Delivery)
      ensures d == Handle(config, m, sendFails)
      ensures d.Posted? ==> !sendFails && MapContent(config.destination, m) == Some(d.request)
    {
      if !Handled(m) || !ShouldRelay(config, m) {
        return Dropped;
      }
      var req := MapContent(config.destination, m);
      if req.None? {
        d := NothingToSend;
      } else if sendFails {
        d := SendFailed(req.value);
      } else {
        d := Posted(req.value);
      }
    }
  }

  /**
   * The dispatcher is stateless: a message whose send failed, delivered
   * again, is handled exactly as it would have been the first time.
   */
  method FailureIsolated(bot: Bot, m: Message) returns (first: Delivery, second: Delivery)
    ensures first == Handle(bot.config, m, true)
    ensures second == Handle(bot.config, m, false)
    ensures first.SendFailed? ==> second == Posted(first.request)
  {
    first := bot.HandleMessage(m, true);
    second := bot.HandleMessage(m, false);
  }
}
