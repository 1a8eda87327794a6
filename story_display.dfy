/** One user's page: a cursor over that user's segments, the playback flags
    that gate the player and the progress bars, and the routing of taps and
    player errors between the user's own segments and the page controller. */
module StoryDisplay {
  import opened StoryData
  import opened ProgressState

  /** A touch-up after a hold longer than this many milliseconds is consumed. */
  const HoldLimit: int := 500
  /** Duration given to every progress bar when the page is set up. */
  const AllStoryDuration: int := 4000
  /** Bar duration used for a video segment when there is no player to ask. */
  const FallbackVideoDuration: int := 8000
  /** Where the player is sought to when playback (re)starts on resume. */
  const ResumeSeekMs: int := 5

  /** What the page does to its collaborators (the media player, the
      segmented progress bar, the page controller), in the order it does it. */
  datatype Effect =
    | PlayerStop
    | PlayerRelease
    | PlayerPrepare(index: int)        // a new player is built and prepared for stories[index]
    | PlayerPlayWhenReady(play: bool)
    | PlayerSeekTo(ms: int)
    | ShowImage(index: int)            // the image of stories[index] is loaded into the view
    | BarSetup(count: int, position: int, durationMs: int)
    | BarStart                         // start the bars from the first segment
    | BarStartAt(index: int)           // start the bars from segment `index`
    | BarSkip
    | BarReverse
    | BarPause
    | BarResume
    | BarAbandon
    | BarSetDuration(index: int, durationMs: int)
    | NextPageRequested
    | BackPageRequested

  /** The two tap zones of the page; any other view is ignored. */
  datatype TapTarget = NextZone | PreviousZone | OtherView

  /** The touch actions the page reacts to. */
  datatype TouchAction = Down | Up | OtherAction

  /** Whether a tap or an error is handled within the user's segments or
      handed to the page controller. */
  datatype Route = InPlace | ToPager

  // ---------------------------------------------------------------------
  // The cursor, as a value: the segment index and the shared table

  datatype Move = Forward | Backward

  datatype Cursor = Cursor(counter: int, saved: map<int, int>)

  /** One move of the cursor of the page at `position` over `size` segments:
      it steps only while it stays on a segment, and every step is saved
      under the page's position. */
  function Step(cur: Cursor, mv: Move, size: int, position: int): Cursor
  {
    match mv
    case Forward =>
      if size <= cur.counter + 1 then cur
      else Cursor(cur.counter + 1, cur.saved[position := cur.counter + 1])
    case Backward =>
      if cur.counter - 1 < 0 then cur
      else Cursor(cur.counter - 1, cur.saved[position := cur.counter - 1])
  }

  /** The cursor after a whole sequence of moves. */
  function Walk(cur: Cursor, moves: seq<Move>, size: int, position: int): Cursor
    decreases |moves|
  {
    if moves == [] then cur
    else Walk(Step(cur, moves[0], size, position), moves[1..], size, position)
  }

  /** The cursor and the page's saved entry both name an existing segment. */
  predicate InRange(cur: Cursor, size: int, position: int)
  {
    0 <= cur.counter < size && 0 <= Lookup(cur.saved, position) < size
  }

  /** The page's saved entry is the segment the cursor is on. */
  predicate Synced(cur: Cursor, position: int)
  {
    Lookup(cur.saved, position) == cur.counter
  }

  /** `n` moves in the same direction. */
  function Repeat(mv: Move, n: nat): (r: seq<Move>)
    ensures |r| == n
  {
    if n == 0 then [] else [mv] + Repeat(mv, n - 1)
  }

  /** A step keeps the cursor and the saved entry on existing segments. */
  lemma StepInRange(cur: Cursor, mv: Move, size: int, position: int)
    requires InRange(cur, size, position)
    ensures InRange(Step(cur, mv, size, position), size, position)
  {
  }

  /** A forward step moves exactly one segment on when the cursor is not on
      the last one, and a backward step exactly one back when it is not on
      the first one; otherwise the step changes nothing at all. */
  lemma StepMoves(cur: Cursor, size: int, position: int)
    requires InRange(cur, size, position)
    ensures var c := Step(cur, Forward, size, position);
      (c != cur <==> cur.counter < size - 1) && (c != cur ==> c.counter == cur.counter + 1)
    ensures var c := Step(cur, Backward, size, position);
      (c != cur <==> cur.counter > 0) && (c != cur ==> c.counter == cur.counter - 1)
  {
  }

  /** A step that moves saves the new index under the page's position (so
      restoring reads it back), and no step touches another page's entry. */
  lemma StepSaves(cur: Cursor, mv: Move, size: int, position: int, other: int)
    requires other != position
    ensures var c := Step(cur, mv, size, position);
      (c.counter != cur.counter ==> Synced(c, position)) &&
      (c.counter == cur.counter ==> c == cur) &&
      Lookup(c.saved, other) == Lookup(cur.saved, other)
  {
  }

  /** Any sequence of moves keeps the cursor and the saved entry in range. */
  lemma {:induction false} WalkInRange(cur: Cursor, moves: seq<Move>, size: int, position: int)
    requires InRange(cur, size, position)
    ensures InRange(Walk(cur, moves, size, position), size, position)
    decreases |moves|
  {
    if moves != [] {
      StepInRange(cur, moves[0], size, position);
      WalkInRange(Step(cur, moves[0], size, position), moves[1..], size, position);
    }
  }

  /** After any sequence of moves, either none of them moved (nothing
      changed) or the saved entry is the final segment; other pages' entries
      are never touched. */
  lemma {:induction false} WalkSaves(cur: Cursor, moves: seq<Move>, size: int, position: int, other: int)
    requires other != position
    ensures var w := Walk(cur, moves, size, position);
      (w == cur || Synced(w, position)) && Lookup(w.saved, other) == Lookup(cur.saved, other)
    decreases |moves|
  {
    if moves != [] {
      var s := Step(cur, moves[0], size, position);
      StepSaves(cur, moves[0], size, position, other);
      WalkSaves(s, moves[1..], size, position, other);
      var w := Walk(s, moves[1..], size, position);
      if w == s && s != cur {
        assert Synced(w, position);
      }
    }
  }

  /** `n` forward moves from any segment land `n` segments on, or on the
      last segment when there are fewer than `n` left. */
  lemma {:induction false} WalkForward(cur: Cursor, n: nat, size: int, position: int)
    requires InRange(cur, size, position)
    ensures var w := Walk(cur, Repeat(Forward, n), size, position);
      w.counter == if cur.counter + n < size then cur.counter + n else size - 1
    decreases n
  {
    if n > 0 {
      var moves := Repeat(Forward, n);
      assert moves[0] == Forward && moves[1..] == Repeat(Forward, n - 1);
      StepInRange(cur, Forward, size, position);
      WalkForward(Step(cur, Forward, size, position), n - 1, size, position);
    }
  }

  /** `n` backward moves from any segment land `n` segments back, or on the
      first segment when there are fewer than `n` before it. */
  lemma {:induction false} WalkBackward(cur: Cursor, n: nat, size: int, position: int)
    requires InRange(cur, size, position)
    ensures var w := Walk(cur, Repeat(Backward, n), size, position);
      w.counter == if cur.counter - n >= 0 then cur.counter - n else 0
    decreases n
  {
    if n > 0 {
      var moves := Repeat(Backward, n);
      assert moves[0] == Backward && moves[1..] == Repeat(Backward, n - 1);
      StepInRange(cur, Backward, size, position);
      WalkBackward(Step(cur, Backward, size, position), n - 1, size, position);
    }
  }

  // ---------------------------------------------------------------------
  // Routing and timing decisions

  /** The "next" zone and a player error: the last segment hands off to the
      page controller, any other segment skips within the user. */
  function NextTap(counter: int, size: int): Route
  {
    if counter == size - 1 then ToPager else InPlace
  }

  /** The "previous" zone: the first segment hands off to the page
      controller, any other segment reverses within the user. */
  function PrevTap(counter: int): Route
  {
    if counter == 0 then ToPager else InPlace
  }

  /** A tap is handled in place exactly when the cursor can move that way:
      skipping and reversing never ask for a segment that does not exist,
      and at either end the page controller takes over. */
  lemma TapRouting(cur: Cursor, size: int, position: int)
    requires InRange(cur, size, position)
    ensures NextTap(cur.counter, size) == InPlace <==> Step(cur, Forward, size, position) != cur
    ensures PrevTap(cur.counter) == InPlace <==> Step(cur, Backward, size, position) != cur
  {
  }

  /** Whether a touch-up at `now` after a touch-down at `pressTime` is consumed. */
  predicate LongHold(pressTime: int, now: int)
  {
    HoldLimit < now - pressTime
  }

  /** A hold stays long once it is long, and a release within the limit of
      the press is never consumed. */
  lemma LongHoldThreshold(pressTime: int, now: int, later: int)
    requires now <= later
    ensures LongHold(pressTime, now) ==> LongHold(pressTime, later)
    ensures now - pressTime <= HoldLimit ==> !LongHold(pressTime, now)
    ensures LongHold(pressTime, pressTime + HoldLimit + 1)
  {
  }

  /** A video segment whose player has not reported being prepared holds
      playback back. */
  predicate PlaybackGated(story: Story, prepared: bool)
  {
    story.isVideo && !prepared
  }

  // ---------------------------------------------------------------------
  // Effect sequences shared by several operations

  /** `e` when `cond` holds (a call through a reference that may be null). */
  function Guarded(cond: bool, e: Effect): seq<Effect>
  {
    if cond then [e] else []
  }

  /** What showing segment `index` does, given whether a player existed and
      whether a prepared video should start playing. */
  function DisplayEffects(story: Story, index: int, hadPlayer: bool, playWhenPrepared: bool): seq<Effect>
  {
    Guarded(hadPlayer, PlayerStop) +
    if story.isVideo then
      Guarded(hadPlayer, PlayerRelease) + [PlayerPrepare(index)] + Guarded(playWhenPrepared, PlayerPlayWhenReady(true))
    else
      [ShowImage(index)]
  }

  function PauseEffects(hasPlayer: bool): seq<Effect>
  {
    Guarded(hasPlayer, PlayerPlayWhenReady(false)) + [BarPause]
  }

  /** Resuming does nothing until the page has been resumed once. */
  function ResumeEffects(resumed: bool, hasPlayer: bool): seq<Effect>
  {
    if resumed then Guarded(hasPlayer, PlayerPlayWhenReady(true)) + [BarResume] else []
  }

  function RouteEffects(route: Route, attached: bool, toPager: Effect, inPlace: Effect): seq<Effect>
  {
    match route
    case ToPager => Guarded(attached, toPager)
    case InPlace => [inPlace]
  }

  // ---------------------------------------------------------------------
  // The page itself

  class StoryDisplayFragment {
    /** The page's position in the pager; the key of its entry in `table`. */
    const position: int
    const stories: seq<Story>
    /** The process-wide progress table shared by all pages. */
    const table: ProgressTable

    var counter: int
    var pressTime: int
    var onResumeCalled: bool
    var onVideoPrepared: bool
    /** Whether a media player has been created (it stays set once released). */
    var hasPlayer: bool
    /** Whether the page controller has been attached. */
    var attached: bool
    var log: seq<Effect>

    ghost predicate Valid()
      reads this, table
    {
      InRange(Cursor(counter, table.entries), |stories|, position)
    }

    /** A page for `stories` at `position`; the saved entry of that position
        must name one of its segments. */
    constructor NewInstance(position: int, stories: seq<Story>, table: ProgressTable)
      requires 0 <= Lookup(table.entries, position) < |stories|
      ensures Valid()
      ensures this.position == position && this.stories == stories && this.table == table
      ensures counter == 0 && pressTime == 0 && !onResumeCalled && !onVideoPrepared
      ensures !hasPlayer && !attached && log == []
    {
      this.position := position;
      this.stories := stories;
      this.table := table;
      counter := 0;
      pressTime := 0;
      onResumeCalled := false;
      onVideoPrepared := false;
      hasPlayer := false;
      attached := false;
      log := [];
    }

    method OnAttach()
      modifies this`attached
      ensures attached
    {
      attached := true;
    }

    /** Shows the first segment and sets up the progress bars. */
    method OnViewCreated()
      requires Valid()
      modifies this`hasPlayer, this`log
      ensures Valid()
      ensures hasPlayer == (old(hasPlayer) || stories[counter].isVideo)
      ensures log == old(log) + DisplayEffects(stories[counter], counter, old(hasPlayer), onResumeCalled)
                     + [BarSetup(|stories|, position, AllStoryDuration)]
    {
      UpdateStory();
      log := log + [BarSetup(|stories|, position, AllStoryDuration)];
    }

    /** Shows segment `counter`: a video gets a fresh, prepared player, an
        image is loaded into the view. */
    method UpdateStory()
      requires 0 <= counter < |stories|
      modifies this`hasPlayer, this`log
      ensures hasPlayer == (old(hasPlayer) || stories[counter].isVideo)
      ensures log == old(log) + DisplayEffects(stories[counter], counter, old(hasPlayer), onResumeCalled)
    {
      if hasPlayer {
        log := log + [PlayerStop];
      }
      if stories[counter].isVideo {
        if hasPlayer {
          log := log + [PlayerRelease];
        }
        hasPlayer := true;
        log := log + [PlayerPrepare(counter)];
        if onResumeCalled {
          log := log + [PlayerPlayWhenReady(true)];
        }
      } else {
        log := log + [ShowImage(counter)];
      }
    }

    /** Writes `pos` into the shared table under this page's position. */
    method SavePosition(pos: int)
      modifies table
      ensures table.entries == old(table.entries)[position := pos]
    {
      table.Put(position, pos);
    }

    /** The segment saved for this page: always one of its segments. */
    method RestorePosition() returns (r: int)
      requires Valid()
      ensures 0 <= r < |stories|
      ensures Synced(Cursor(r, table.entries), position)
    {
      r := Lookup(table.entries, position);
    }

    method OnStart()
      requires Valid()
      modifies this`counter
      ensures Valid() && Synced(Cursor(counter, table.entries), position)
    {
      counter := RestorePosition();
    }

    /** Marks the page resumed; an unprepared video only pauses the player,
        anything else restarts playback and the bars from the saved segment. */
    method OnResume()
      requires Valid()
      modifies this`onResumeCalled, this`counter, this`log
      ensures Valid() && onResumeCalled
      ensures PlaybackGated(stories[old(counter)], onVideoPrepared) ==>
        counter == old(counter) && log == old(log) + Guarded(hasPlayer, PlayerPlayWhenReady(false))
      ensures !PlaybackGated(stories[old(counter)], onVideoPrepared) ==>
        counter == (if old(counter) == 0 then 0 else Lookup(table.entries, position)) &&
        log == old(log) + Guarded(hasPlayer, PlayerSeekTo(ResumeSeekMs)) + Guarded(hasPlayer, PlayerPlayWhenReady(true))
               + [if old(counter) == 0 then BarStart else BarStartAt(counter)]
    {
      onResumeCalled := true;
      if stories[counter].isVideo && !onVideoPrepared {
        log := log + Guarded(hasPlayer, PlayerPlayWhenReady(false));
        return;
      }
      log := log + Guarded(hasPlayer, PlayerSeekTo(ResumeSeekMs)) + Guarded(hasPlayer, PlayerPlayWhenReady(true));
      if counter == 0 {
        log := log + [BarStart];
      } else {
        counter := Lookup(table.entries, position);
        log := log + [BarStartAt(counter)];
      }
    }

    method OnPause()
      modifies this`log
      ensures log == old(log) + Guarded(hasPlayer, PlayerPlayWhenReady(false)) + [BarAbandon]
    {
      log := log + Guarded(hasPlayer, PlayerPlayWhenReady(false)) + [BarAbandon];
    }

    /** The bars ran past the last segment: release the player and hand off. */
    method OnComplete()
      modifies this`log
      ensures log == old(log) + Guarded(hasPlayer, PlayerRelease) + Guarded(attached, NextPageRequested)
    {
      log := log + Guarded(hasPlayer, PlayerRelease) + Guarded(attached, NextPageRequested);
    }

    method OnDestroyView()
      modifies this`log
      ensures log == old(log) + Guarded(hasPlayer, PlayerRelease)
    {
      log := log + Guarded(hasPlayer, PlayerRelease);
    }

    /** One segment back, saved and shown; nothing at all on the first one. */
    method OnPrev()
      requires Valid()
      modifies this`counter, this`hasPlayer, this`log, table
      ensures Valid()
      ensures Cursor(counter, table.entries) ==
              Step(Cursor(old(counter), old(table.entries)), Backward, |stories|, position)
      ensures counter == old(counter) ==> log == old(log) && hasPlayer == old(hasPlayer)
      ensures counter != old(counter) ==>
        hasPlayer == (old(hasPlayer) || stories[counter].isVideo) &&
        log == old(log) + DisplayEffects(stories[counter], counter, old(hasPlayer), onResumeCalled)
    {
      if counter - 1 < 0 {
        return;
      }
      counter := counter - 1;
      SavePosition(counter);
      UpdateStory();
    }

    /** One segment on, saved and shown; nothing at all on the last one. */
    method OnNext()
      requires Valid()
      modifies this`counter, this`hasPlayer, this`log, table
      ensures Valid()
      ensures Cursor(counter, table.entries) ==
              Step(Cursor(old(counter), old(table.entries)), Forward, |stories|, position)
      ensures counter == old(counter) ==> log == old(log) && hasPlayer == old(hasPlayer)
      ensures counter != old(counter) ==>
        hasPlayer == (old(hasPlayer) || stories[counter].isVideo) &&
        log == old(log) + DisplayEffects(stories[counter], counter, old(hasPlayer), onResumeCalled)
    {
      if |stories| <= counter + 1 {
        return;
      }
      counter := counter + 1;
      SavePosition(counter);
      UpdateStory();
    }

    /** The player failed: hand off on the last segment, skip otherwise. */
    method OnPlayerError()
      modifies this`log
      ensures log == old(log) + RouteEffects(NextTap(counter, |stories|), attached, NextPageRequested, BarSkip)
    {
      if counter == |stories| - 1 {
        log := log + Guarded(attached, NextPageRequested);
      } else {
        log := log + [BarSkip];
      }
    }

    /** The player started loading (the story pauses, the press time is
        reset) or finished loading (the bar gets the video's duration, the
        video counts as prepared and the story resumes). */
    method OnIsLoadingChanged(isLoading: bool, now: int, playerDuration: int)
      modifies this`pressTime, this`onVideoPrepared, this`log
      ensures isLoading ==>
        pressTime == now && onVideoPrepared == old(onVideoPrepared) && log == old(log) + PauseEffects(hasPlayer)
      ensures !isLoading ==>
        pressTime == old(pressTime) && onVideoPrepared &&
        log == old(log) + [BarSetDuration(counter, if hasPlayer then playerDuration else FallbackVideoDuration)]
               + ResumeEffects(onResumeCalled, hasPlayer)
    {
      if isLoading {
        pressTime := now;
        PauseCurrentStory();
      } else {
        log := log + [BarSetDuration(counter, if hasPlayer then playerDuration else FallbackVideoDuration)];
        onVideoPrepared := true;
        ResumeCurrentStory();
      }
    }

    method OnClick(view: TapTarget)
      modifies this`log
      ensures view == NextZone ==>
        log == old(log) + RouteEffects(NextTap(counter, |stories|), attached, NextPageRequested, BarSkip)
      ensures view == PreviousZone ==>
        log == old(log) + RouteEffects(PrevTap(counter), attached, BackPageRequested, BarReverse)
      ensures view == OtherView ==> log == old(log)
    {
      match view
      case NextZone =>
        if counter == |stories| - 1 {
          log := log + Guarded(attached, NextPageRequested);
        } else {
          log := log + [BarSkip];
        }
      case PreviousZone =>
        if counter == 0 {
          log := log + Guarded(attached, BackPageRequested);
        } else {
          log := log + [BarReverse];
        }
      case OtherView =>
    }

    /** A touch-down pauses and records the press time; a touch-up resumes
        and is consumed exactly when the hold was longer than the limit. */
    method OnTouchView(action: TouchAction, now: int) returns (consumed: bool)
      modifies this`pressTime, this`log
      ensures action == Down ==> pressTime == now && log == old(log) + PauseEffects(hasPlayer) && !consumed
      ensures action == Up ==>
        pressTime == old(pressTime) && log == old(log) + ResumeEffects(onResumeCalled, hasPlayer) &&
        consumed == LongHold(pressTime, now)
      ensures action == OtherAction ==> pressTime == old(pressTime) && log == old(log) && !consumed
    {
      match action
      case Down =>
        pressTime := now;
        PauseCurrentStory();
        consumed := false;
      case Up =>
        ResumeCurrentStory();
        consumed := HoldLimit < now - pressTime;
      case OtherAction =>
        consumed := false;
    }

    method PauseCurrentStory()
      modifies this`log
      ensures log == old(log) + PauseEffects(hasPlayer)
    {
      log := log + Guarded(hasPlayer, PlayerPlayWhenReady(false)) + [BarPause];
    }

    /** Has no effect until the page has been resumed once. */
    method ResumeCurrentStory()
      modifies this`log
      ensures log == old(log) + ResumeEffects(onResumeCalled, hasPlayer)
    {
      if onResumeCalled {
        log := log + Guarded(hasPlayer, PlayerPlayWhenReady(true)) + [BarResume];
      }
    }
  }
}
