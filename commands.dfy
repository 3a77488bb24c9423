/**
 * The bot's configuration (the three module globals of bot.py) and the
 * operator commands that change it, as a pure state machine. The class
 * `Bot` in bot_state.dfy holds a `Config` and implements each command as a
 * method proved against `Apply`.
 */
module Commands {
  import opened Wrappers
  import opened Python

  /**
   * `source_channel_ids` is a list (order and duplicates kept),
   * `destination_channel_id` is `None` or an int, `copying_enabled` a bool.
   */
  datatype Config = Config(sources: seq<int>, destination: Option<int>, enabled: bool)

  /** The state at process start. */
  const Initial := Config([], None, false)

  /** `check_channel_ids`: a non-empty source list and a truthy destination (so `0` counts as unset). */
  predicate ChannelIdsSet(c: Config)
    ensures ChannelIdsSet(c) <==> |c.sources| > 0 && c.destination != None && c.destination != Some(0)
  {
    c.sources != [] && IntTruthy(c.destination)
  }

  /**
   * An operator command. `args` are the whitespace-separated tokens that
   * follow the command word (`message.text.split()[1:]`).
   */
  datatype Command =
    | SetSource(args: seq<string>)
    | SetDestination(args: seq<string>)
    | StartCopy
    | StopCopy
    | RemoveSource
    | RemoveDestination

  /** What a successful command reports back. */
  datatype Ack =
    | SourcesSet(ids: seq<int>)
    | DestinationSet(id: int)
    | Started
    | Stopped
    | SourcesRemoved
    | DestinationRemoved

  /** The two usage errors and the precondition error of `/startcopy`. */
  datatype Failure = SourceUsage | DestinationUsage | ChannelIdsNotSet

  datatype Reply = Ok(ack: Ack) | Err(failure: Failure)

  datatype Step = Step(config: Config, reply: Reply)

  /**
   * `[int(id) for id in ids]`: every token parsed, in order, or `None` as
   * soon as one token raises `ValueError`.
   */
  function ParseIds(tokens: seq<string>): (r: Option<seq<int>>)
    ensures r.Some? <==> forall i :: 0 <= i < |tokens| ==> ParseInt(tokens[i]).Some?
    ensures r.Some? ==> |r.value| == |tokens|
    ensures r.Some? ==> forall i :: 0 <= i < |tokens| ==> ParseInt(tokens[i]) == Some(r.value[i])
  {
    if tokens == [] then Some([])
    else
      var head := ParseInt(tokens[0]);
      if head.None? then None
      else
        var tail := ParseIds(tokens[1..]);
        if tail.None? then None
        else
          assert forall i :: 1 <= i < |tokens| ==> tokens[i] == tokens[1..][i - 1];
          Some([head.value] + tail.value)
  }

  /** One command applied to the configuration: the new state and the reply. */
  function Apply(c: Config, cmd: Command): (r: Step)
    // each global is written by its own commands only
    ensures r.config.sources != c.sources ==> cmd.SetSource? || cmd.RemoveSource?
    ensures r.config.destination != c.destination ==> cmd.SetDestination? || cmd.RemoveDestination?
    ensures r.config.enabled != c.enabled ==> cmd.StartCopy? || cmd.StopCopy?
    // an error reply leaves the whole state untouched
    ensures r.reply.Err? ==> r.config == c
  {
    match cmd
    case SetSource(args) =>
      var ids := ParseIds(args);
      if ids.None? then Step(c, Err(SourceUsage))
      else Step(c.(sources := ids.value), Ok(SourcesSet(ids.value)))
    case SetDestination(args) =>
      if args == [] then Step(c, Err(DestinationUsage))
      else
        var id := ParseInt(args[0]);
        if id.None? then Step(c, Err(DestinationUsage))
        else Step(c.(destination := id), Ok(DestinationSet(id.value)))
    case StartCopy =>
      if ChannelIdsSet(c) then Step(c.(enabled := true), Ok(Started))
      else Step(c, Err(ChannelIdsNotSet))
    case StopCopy => Step(c.(enabled := false), Ok(Stopped))
    case RemoveSource => Step(c.(sources := []), Ok(SourcesRemoved))
    case RemoveDestination => Step(c.(destination := None), Ok(DestinationRemoved))
  }

  /** Commands applied one at a time, in order. */
  function Run(c: Config, cmds: seq<Command>): (final: Config)
    decreases |cmds|
  {
    if cmds == [] then c else Apply(Run(c, cmds[..|cmds| - 1]), cmds[|cmds| - 1]).config
  }

  /** Python's `repr` of a list of ints: `[1, -2]`. */
  function ListRepr(ids: seq<int>): (r: string)
    ensures |r| >= 2 && r[0] == '[' && r[|r| - 1] == ']'
    ensures r == "[]" <==> ids == []
    ensures r == "[" + JoinInts(ids) + "]"
  {
    "[" + JoinInts(ids) + "]"
  }

  /** The ids printed by `str`, separated by `", "`. */
  function JoinInts(ids: seq<int>): (r: string)
    ensures r == "" <==> ids == []
    ensures |ids| == 1 ==> r == ShowInt(ids[0])
  {
    if ids == [] then ""
    else if |ids| == 1 then ShowInt(ids[0])
    else ShowInt(ids[0]) + ", " + JoinInts(ids[1..])
  }

  /**
   * Printing two non-empty lists of ids one after the other, with `", "`
   * between them, prints their concatenation: every id appears, in order,
   * separated by `", "`.
   */
  lemma {:induction false} JoinConcat(a: seq<int>, b: seq<int>)
    requires a != [] && b != []
    ensures JoinInts(a + b) == JoinInts(a) + ", " + JoinInts(b)
    decreases |a|
  {
    var ab := a + b;
    assert ab[0] == a[0] && |ab| > 1;
    if |a| == 1 {
      assert ab[1..] == b;
    } else {
      var rest := a[1..];
      assert ab[1..] == rest + b;
      JoinConcat(rest, b);
      var h, x, y := ShowInt(a[0]), JoinInts(rest), JoinInts(b);
      assert JoinInts(ab) == h + ", " + (x + ", " + y);
      assert JoinInts(a) == h + ", " + x;
      assert h + ", " + (x + ", " + y) == (h + ", " + x) + ", " + y;
    }
  }

  /**
   * A printed list of ids starts with the first id, then `", "` when more
   * follow (a corollary of `JoinConcat`).
   */
  lemma JoinIntsHead(ids: seq<int>)
    requires ids != []
    ensures ShowInt(ids[0]) <= JoinInts(ids)
    ensures |ids| > 1 ==> JoinInts(ids)[|ShowInt(ids[0])|..|ShowInt(ids[0])| + 2] == ", "
  {
    if |ids| > 1 {
      assert ids == [ids[0]] + ids[1..];
      JoinConcat([ids[0]], ids[1..]);
      var h := ShowInt(ids[0]);
      var r := JoinInts(ids);
      assert r == h + ", " + JoinInts(ids[1..]);
      assert r[..|h|] == h;
      assert r[|h|..|h| + 2] == ", ";
    }
  }

  /** The text each reply sends back to the operator. */
  function ReplyText(r: Reply): (t: string)
    ensures r.Ok? && r.ack.SourcesSet? ==> |t| >= 24 && t[24..] == ListRepr(r.ack.ids)
    ensures r.Ok? && r.ack.DestinationSet? ==> |t| >= 28 && t[28..] == ShowInt(r.ack.id)
    ensures r.Err? && !r.failure.ChannelIdsNotSet? ==> |t| >= 8 && t[..8] == "Usage: /"
  {
    match r
    case Ok(SourcesSet(ids)) => "Source channel IDs set: " + ListRepr(ids)
    case Ok(DestinationSet(id)) => "Destination channel ID set: " + ShowInt(id)
    case Ok(Started) => "Started copying messages."
    case Ok(Stopped) => "Stopped copying messages."
    case Ok(SourcesRemoved) => "Source channel IDs removed."
    case Ok(DestinationRemoved) => "Destination channel ID removed."
    case Err(SourceUsage) => "Usage: /" + "setsource <channel_id1> <channel_id2> ..."
    case Err(DestinationUsage) => "Usage: /" + "setdestination <channel_id>"
    case Err(ChannelIdsNotSet) => "Please set the source and destination channel IDs first."
  }

  // ---------------------------------------------------------------- /setsource

  /**
   * `/setsource` whose tokens are all integers replaces the source list with
   * exactly those integers, in order and with duplicates; nothing else changes.
   */
  lemma SetSourceReplaces(c: Config, args: seq<string>)
    requires forall i :: 0 <= i < |args| ==> ParseInt(args[i]).Some?
    ensures var r := Apply(c, SetSource(args));
      && r.reply == Ok(SourcesSet(r.config.sources))
      && |r.config.sources| == |args|
      && (forall i :: 0 <= i < |args| ==> ParseInt(args[i]) == Some(r.config.sources[i]))
      && r.config.destination == c.destination && r.config.enabled == c.enabled
  {
  }

  /** `/setsource` with no ids succeeds and empties the list. */
  lemma SetSourceNoIds(c: Config)
    ensures Apply(c, SetSource([])) == Step(c.(sources := []), Ok(SourcesSet([])))
  {
  }

  /** One non-integer token anywhere makes `/setsource` a usage error that changes nothing. */
  lemma SetSourceUsageError(c: Config, args: seq<string>, i: nat)
    requires i < |args| && ParseInt(args[i]).None?
    ensures Apply(c, SetSource(args)) == Step(c, Err(SourceUsage))
  {
  }

  // ----------------------------------------------------------- /setdestination

  /**
   * `/setdestination` fails, changing nothing, exactly when its first token
   * is missing or not an integer; otherwise it stores that integer (later
   * tokens are ignored) and nothing else changes.
   */
  lemma SetDestinationSpec(c: Config, args: seq<string>)
    ensures var r := Apply(c, SetDestination(args));
      && (r.reply.Err? <==> args == [] || ParseInt(args[0]).None?)
      && (r.reply.Err? ==> r == Step(c, Err(DestinationUsage)))
      && (r.reply.Ok? ==>
            r.config == c.(destination := ParseInt(args[0])) &&
            r.reply == Ok(DestinationSet(ParseInt(args[0]).value)))
  {
  }

  /** The reply to `/setdestination` prints the stored id so that `int()` reads it back. */
  lemma DestinationReplyReadable(c: Config, args: seq<string>)
    requires Apply(c, SetDestination(args)).reply.Ok?
    ensures var r := Apply(c, SetDestination(args));
      var text := ReplyText(r.reply);
      |text| >= 28 && r.config.destination == ParseInt(text[28..])
  {
    var r := Apply(c, SetDestination(args));
    var id := r.reply.ack.id;
    ParseShowRoundTrip(id);
    assert ReplyText(r.reply)[28..] == ShowInt(id);
  }

  // ---------------------------------------------------------------- /startcopy

  /**
   * `/startcopy` succeeds exactly when the source list is non-empty and the
   * destination is truthy; on failure `copying_enabled` keeps its previous
   * value (which may already be true); no other field changes.
   */
  lemma StartCopySpec(c: Config)
    ensures var r := Apply(c, StartCopy);
      && (r.reply.Ok? <==> c.sources != [] && c.destination.Some? && c.destination.value != 0)
      && r.reply == (if ChannelIdsSet(c) then Ok(Started) else Err(ChannelIdsNotSet))
      && r.config.enabled == (c.enabled || ChannelIdsSet(c))
      && r.config.sources == c.sources && r.config.destination == c.destination
  {
  }

  /** A destination of `0` is treated as unset by `/startcopy`. */
  lemma StartCopyRejectsZero(c: Config)
    requires c.destination == Some(0)
    ensures Apply(c, StartCopy) == Step(c, Err(ChannelIdsNotSet))
  {
  }

  // -------------------------------------- /stopcopy, /removesource, /removedestination

  predicate IsReset(cmd: Command) {
    cmd.StopCopy? || cmd.RemoveSource? || cmd.RemoveDestination?
  }

  /**
   * The three reset commands always succeed, each resets exactly its own
   * field (to `False`, `[]` and `None`), and each is idempotent.
   */
  lemma ResetSpec(c: Config, cmd: Command)
    requires IsReset(cmd)
    ensures var r := Apply(c, cmd);
      && r.reply == Ok(match cmd
                       case StopCopy => Stopped
                       case RemoveSource => SourcesRemoved
                       case _ => DestinationRemoved)
      && r.config == (match cmd
                      case StopCopy => c.(enabled := false)
                      case RemoveSource => c.(sources := [])
                      case _ => c.(destination := None))
      && Apply(r.config, cmd) == r
  {
  }

  /**
   * Removing the source list or the destination does not stop copying:
   * the flag stays set although `check_channel_ids` would now fail.
   */
  lemma RemovalKeepsCopying(c: Config, cmd: Command)
    requires c.enabled && (cmd.RemoveSource? || cmd.RemoveDestination?)
    ensures Apply(c, cmd).config.enabled && !ChannelIdsSet(Apply(c, cmd).config)
  {
  }

  // ------------------------------------------------------------- command runs

  /**
   * Copying only becomes enabled through a `/startcopy` issued while
   * `check_channel_ids` held.
   */
  lemma {:induction false} EnabledOnlyAfterStart(c: Config, cmds: seq<Command>)
    requires !c.enabled && Run(c, cmds).enabled
    ensures exists k :: 0 <= k < |cmds| && cmds[k] == StartCopy && ChannelIdsSet(Run(c, cmds[..k]))
    decreases |cmds|
  {
    var n := |cmds|;
    var init := cmds[..n - 1];
    var prev := Run(c, init);
    if prev.enabled {
      EnabledOnlyAfterStart(c, init);
      var k :| 0 <= k < |init| && init[k] == StartCopy && ChannelIdsSet(Run(c, init[..k]));
      assert init[..k] == cmds[..k];
    } else {
      assert cmds[..n - 1] == init;
      match cmds[n - 1]
      case StartCopy =>
      case _ =>
    }
  }

  /**
   * From a fresh start, set a source and a destination, start copying and
   * remove the destination: copying stays enabled with no destination, a
   * state `check_channel_ids` would have refused.
   */
  lemma EnabledWithoutDestination(src: string, dst: string)
    requires ParseInt(src).Some? && IntTruthy(ParseInt(dst))
    ensures var cmds := [SetSource([src]), SetDestination([dst]), StartCopy, RemoveDestination];
      var final := Run(Initial, cmds);
      final == Config([ParseInt(src).value], None, true) && !ChannelIdsSet(final)
  {
    var cmds := [SetSource([src]), SetDestination([dst]), StartCopy, RemoveDestination];
    assert cmds[..0] == [];
    assert cmds[..1][..0] == [];
    assert cmds[..2][..1] == cmds[..1];
    assert cmds[..3][..2] == cmds[..2];
    assert cmds[..4][..3] == cmds[..3];
    assert cmds[..4] == cmds;
    var s1 := Config([ParseInt(src).value], None, false);
    var s2 := s1.(destination := ParseInt(dst));
    assert Run(Initial, cmds[..1]) == s1;
    assert Run(Initial, cmds[..2]) == s2;
    assert Run(Initial, cmds[..3]) == s2.(enabled := true);
  }
}
