/**
 * The per-guild song queues and the playback sequencing of the music bot.
 *
 * `queues` is the process-wide dictionary from guild id to that guild's FIFO
 * of pending tracks; `sessions` stands for the voice client of each guild,
 * abstracted to whether it is connected and whether audio is playing or
 * paused. Commands and the playback-finished callback are handled one at a
 * time, so each is one method here.
 */
module Bot {
  import opened Resolver
  import Views

  /** The voice client of a guild, as the handlers observe it. */
  datatype Session = Disconnected | Idle | Playing | Paused

  /** The reply a command sends back (its wording and formatting are not modelled). */
  datatype Reply =
    | NoReply                   // the handler raised before sending anything
    | NoResults                 // "No results found."
    | AddedToQueue(count: nat, first: Track)
    | NowPlaying(first: Track)  // "Playing: <title>"
    | BotNotInVoice             // "I'm not in a voice channel."
    | NothingPlaying            // "Nothing is currently playing."
    | NotPaused                 // "I'm not paused right now."
    | PlaybackPaused
    | PlaybackResumed
    | Skipped
    | NothingToSkip
    | BotNotConnected           // "I'm not connected to any voice channel."
    | StoppedAndDisconnected

  /** Audio is loaded on the voice client: `is_playing() or is_paused()`. */
  predicate Active(s: Session) { s == Playing || s == Paused }

  /** The tracks the extractor returns for the user's text, after classification. */
  function Resolve(extract: string -> Option<seq<Entry>>, query: string): Option<seq<Entry>>
  {
    extract(ClassifyQuery(query))
  }

  function SessionIn(ss: map<string, Session>, g: string): Session
  {
    if g in ss then ss[g] else Disconnected
  }

  function PendingIn(qs: map<string, seq<Track>>, g: string): seq<Track>
  {
    if g in qs then qs[g] else []
  }

  /**
   * The per-guild invariant of serialized handling: a guild with audio
   * loaded has a queue, and a guild without audio has nothing pending
   * (every handler that leaves the voice client idle first drains the queue).
   */
  ghost predicate GuildOk(qs: map<string, seq<Track>>, ss: map<string, Session>, g: string)
  {
    (Active(SessionIn(ss, g)) ==> g in qs) &&
    (!Active(SessionIn(ss, g)) ==> PendingIn(qs, g) == [])
  }

  ghost predicate OthersOk(qs: map<string, seq<Track>>, ss: map<string, Session>, g: string)
  {
    forall h :: h != g ==> GuildOk(qs, ss, h)
  }

  ghost predicate StoreOk(qs: map<string, seq<Track>>, ss: map<string, Session>)
  {
    forall h :: GuildOk(qs, ss, h)
  }

  /** Replacing g's queue leaves every other guild as it was. */
  lemma SetQueue(qs: map<string, seq<Track>>, ss: map<string, Session>, g: string, q: seq<Track>)
    requires OthersOk(qs, ss, g)
    ensures OthersOk(qs[g := q], ss, g)
  {
    var qs2 := qs[g := q];
    forall h | h != g ensures GuildOk(qs2, ss, h) {
      assert GuildOk(qs, ss, h);
    }
  }

  /** Replacing g's session leaves every other guild as it was. */
  lemma SetSession(qs: map<string, seq<Track>>, ss: map<string, Session>, g: string, s: Session)
    requires OthersOk(qs, ss, g)
    ensures OthersOk(qs, ss[g := s], g)
  {
    var ss2 := ss[g := s];
    forall h | h != g ensures GuildOk(qs, ss2, h) {
      assert GuildOk(qs, ss, h);
    }
  }

  class MusicBot {
    var queues: map<string, seq<Track>>
    var sessions: map<string, Session>

    function SessionOf(g: string): Session
      reads this
    {
      SessionIn(sessions, g)
    }

    /** The pending tracks of g; a guild without a queue has none. */
    function Pending(g: string): seq<Track>
      reads this
    {
      PendingIn(queues, g)
    }

    ghost predicate Valid()
      reads this
    {
      StoreOk(queues, sessions)
    }

    constructor ()
      ensures Valid()
      ensures queues == map[] && sessions == map[]
    {
      queues := map[];
      sessions := map[];
    }

    /**
     * `play_next_song`: pop the head of g's queue and start it, or, when the
     * queue is empty, disconnect and reset the queue.
     */
    method Advance(g: string) returns (started: Option<Track>)
      requires g in queues && SessionOf(g) == Idle
      requires OthersOk(queues, sessions, g)
      modifies this
      ensures Valid()
      ensures old(Pending(g)) != [] ==>
                started == Some(old(Pending(g))[0]) &&
                queues == old(queues)[g := old(Pending(g))[1..]] &&
                sessions == old(sessions)[g := Playing]
      ensures old(Pending(g)) == [] ==>
                started == None &&
                queues == old(queues)[g := []] &&
                sessions == old(sessions)[g := Disconnected]
    {
      var q := queues[g];
      SetQueue(queues, sessions, g, if q != [] then q[1..] else []);
      SetSession(queues[g := if q != [] then q[1..] else []], sessions, g,
                 if q != [] then Playing else Disconnected);
      if q != [] {
        started := Some(q[0]);
        queues := queues[g := q[1..]];
        sessions := sessions[g := Playing];
      } else {
        started := None;
        sessions := sessions[g := Disconnected];
        queues := queues[g := []];
      }
      assert GuildOk(queues, sessions, g);
    }

    /**
     * The `after` callback of the voice client: the audio of g ended (on its
     * own, because skip or stop stopped it, or because the encoder failed,
     * which the source only logs), and playback advances the same way.
     */
    method OnTrackFinished(g: string) returns (started: Option<Track>)
      requires Valid() && Active(SessionOf(g))
      modifies this
      ensures Valid()
      ensures old(Pending(g)) != [] ==>
                started == Some(old(Pending(g))[0]) &&
                queues == old(queues)[g := old(Pending(g))[1..]] &&
                sessions == old(sessions)[g := Playing]
      ensures old(Pending(g)) == [] ==>
                started == None &&
                queues == old(queues)[g := []] &&
                sessions == old(sessions)[g := Disconnected]
    {
      assert GuildOk(queues, sessions, g);
      SetSession(queues, sessions, g, Idle);
      sessions := sessions[g := Idle];
      started := Advance(g);
    }

    /**
     * The enqueue step of `play`: create g's queue if it is missing, then
     * append one track per entry, in order, at the tail.
     */
    method Enqueue(g: string, es: seq<Entry>)
      modifies this
      ensures queues == old(queues)[g := old(Pending(g)) + ToTracks(es)]
      ensures sessions == old(sessions)
      ensures forall i :: 0 <= i < |es| ==>
                queues[g][|old(Pending(g))| + i].title ==
                  if es[i].title.Some? then es[i].title.value else DefaultTitle
    {
      ghost var base := Pending(g);
      if g !in queues {
        queues := queues[g := []];
      }
      assert queues == old(queues)[g := base];
      assert ToTracks(es[..0]) == [] && base + [] == base;
      var i := 0;
      while i < |es|
        invariant 0 <= i <= |es|
        invariant sessions == old(sessions)
        invariant queues == old(queues)[g := base + ToTracks(es[..i])]
      {
        ToTracksSnoc(base, es, i);
        queues := queues[g := queues[g] + [ToTrack(es[i])]];
        i := i + 1;
      }
      assert es[..|es|] == es;
    }

    /** Joining the caller's channel: a disconnected guild becomes connected and idle. */
    method Connect(g: string)
      requires Valid()
      modifies this
      ensures Valid() && queues == old(queues)
      ensures sessions == old(sessions)[g := if old(SessionOf(g)) == Disconnected then Idle else old(SessionOf(g))]
    {
      assert GuildOk(queues, sessions, g);
      if SessionOf(g) == Disconnected {
        SetSession(queues, sessions, g, Idle);
        sessions := sessions[g := Idle];
        assert GuildOk(queues, sessions, g);
      } else {
        assert sessions == sessions[g := SessionOf(g)];
      }
    }

    /**
     * The `play` command: join the caller's channel, resolve the query, append
     * every resolved track to g's queue, and start playback unless audio is
     * already loaded.
     */
    method Play(g: string, userInVoice: bool, query: string,
                extract: string -> Option<seq<Entry>>) returns (reply: Reply, started: Option<Track>)
      requires Valid()
      modifies this
      ensures Valid()
      ensures !userInVoice ==>
                reply == NoReply && started == None &&
                queues == old(queues) && sessions == old(sessions)
      ensures userInVoice && (Resolve(extract, query).None? || Resolve(extract, query).value == []) ==>
                reply == NoResults && started == None && queues == old(queues) &&
                sessions == old(sessions)[g := if Active(old(SessionOf(g))) then old(SessionOf(g)) else Idle]
      ensures userInVoice && Resolve(extract, query).Some? && Resolve(extract, query).value != [] &&
              Active(old(SessionOf(g))) ==>
                var ts := ToTracks(Resolve(extract, query).value);
                reply == AddedToQueue(|ts|, ts[0]) && started == None &&
                queues == old(queues)[g := old(Pending(g)) + ts] &&
                sessions == old(sessions)
      ensures userInVoice && Resolve(extract, query).Some? && Resolve(extract, query).value != [] &&
              !Active(old(SessionOf(g))) ==>
                var ts := ToTracks(Resolve(extract, query).value);
                reply == NowPlaying(ts[0]) && started == Some(ts[0]) &&
                queues == old(queues)[g := ts[1..]] &&
                sessions == old(sessions)[g := Playing]
    {
      started := None;
      if !userInVoice {
        return NoReply, None;
      }
      Connect(g);
      var results := extract(ClassifyQuery(query));
      if results.None? || results.value == [] {
        return NoResults, None;
      }
      reply, started := EnqueueAndStart(g, results.value);
    }

    /**
     * The second half of `play`, once entries are resolved: append them to
     * g's queue, then either only report them as queued (audio is loaded) or
     * start the head of the queue.
     */
    method EnqueueAndStart(g: string, es: seq<Entry>) returns (reply: Reply, started: Option<Track>)
      requires Valid() && SessionOf(g) != Disconnected && es != []
      modifies this
      ensures Valid()
      ensures Active(old(SessionOf(g))) ==>
                reply == AddedToQueue(|es|, ToTrack(es[0])) && started == None &&
                queues == old(queues)[g := old(Pending(g)) + ToTracks(es)] &&
                sessions == old(sessions)
      ensures !Active(old(SessionOf(g))) ==>
                reply == NowPlaying(ToTrack(es[0])) && started == Some(ToTrack(es[0])) &&
                queues == old(queues)[g := ToTracks(es)[1..]] &&
                sessions == old(sessions)[g := Playing]
    {
      started := None;
      ghost var qs0 := queues;
      assert GuildOk(qs0, sessions, g);
      Enqueue(g, es);
      var ts := ToTracks(es);
      SetQueue(qs0, sessions, g, queues[g]);
      if Active(SessionOf(g)) {
        reply := AddedToQueue(|ts|, ToTrack(es[0]));
        assert GuildOk(queues, sessions, g);
      } else {
        assert PendingIn(qs0, g) + ts == ts;
        reply := NowPlaying(ToTrack(es[0]));
        started := Advance(g);
      }
    }

    /** The `skip` command: stopping loaded audio fires the finished callback. */
    method Skip(g: string) returns (reply: Reply, started: Option<Track>)
      requires Valid()
      modifies this
      ensures Valid()
      ensures !Active(old(SessionOf(g))) ==>
                reply == NothingToSkip && started == None &&
                queues == old(queues) && sessions == old(sessions)
      ensures Active(old(SessionOf(g))) && old(Pending(g)) != [] ==>
                reply == Skipped && started == Some(old(Pending(g))[0]) &&
                queues == old(queues)[g := old(Pending(g))[1..]] &&
                sessions == old(sessions)[g := Playing]
      ensures Active(old(SessionOf(g))) && old(Pending(g)) == [] ==>
                reply == Skipped && started == None &&
                queues == old(queues)[g := []] &&
                sessions == old(sessions)[g := Disconnected]
    {
      if Active(SessionOf(g)) {
        reply := Skipped;
        started := OnTrackFinished(g);
      } else {
        reply, started := NothingToSkip, None;
      }
    }

    /** The `pause` command. */
    method Pause(g: string) returns (reply: Reply)
      requires Valid()
      modifies this
      ensures Valid() && queues == old(queues)
      ensures old(SessionOf(g)) == Disconnected ==> reply == BotNotInVoice && sessions == old(sessions)
      ensures old(SessionOf(g)) in {Idle, Paused} ==> reply == NothingPlaying && sessions == old(sessions)
      ensures old(SessionOf(g)) == Playing ==> reply == PlaybackPaused && sessions == old(sessions)[g := Paused]
    {
      var s := SessionOf(g);
      if s == Disconnected {
        return BotNotInVoice;
      }
      if s != Playing {
        return NothingPlaying;
      }
      assert GuildOk(queues, sessions, g);
      SetSession(queues, sessions, g, Paused);
      sessions := sessions[g := Paused];
      reply := PlaybackPaused;
      assert GuildOk(queues, sessions, g);
    }

    /** The `resume` command. */
    method Resume(g: string) returns (reply: Reply)
      requires Valid()
      modifies this
      ensures Valid() && queues == old(queues)
      ensures old(SessionOf(g)) == Disconnected ==> reply == BotNotInVoice && sessions == old(sessions)
      ensures old(SessionOf(g)) in {Idle, Playing} ==> reply == NotPaused && sessions == old(sessions)
      ensures old(SessionOf(g)) == Paused ==> reply == PlaybackResumed && sessions == old(sessions)[g := Playing]
    {
      var s := SessionOf(g);
      if s == Disconnected {
        return BotNotInVoice;
      }
      if s != Paused {
        return NotPaused;
      }
      assert GuildOk(queues, sessions, g);
      SetSession(queues, sessions, g, Playing);
      sessions := sessions[g := Playing];
      reply := PlaybackResumed;
      assert GuildOk(queues, sessions, g);
    }

    /**
     * The `stop` command: clear g's queue, stop loaded audio (whose finished
     * callback then drains the empty queue), and disconnect.
     */
    method Stop(g: string) returns (reply: Reply)
      requires Valid()
      modifies this
      ensures Valid()
      ensures old(SessionOf(g)) == Disconnected ==>
                reply == BotNotConnected && queues == old(queues) && sessions == old(sessions)
      ensures old(SessionOf(g)) != Disconnected ==>
                reply == StoppedAndDisconnected &&
                queues == (if g in old(queues) then old(queues)[g := []] else old(queues)) &&
                sessions == old(sessions)[g := Disconnected]
    {
      if SessionOf(g) == Disconnected {
        return BotNotConnected;
      }
      assert GuildOk(queues, sessions, g);
      if g in queues {
        SetQueue(queues, sessions, g, []);
        queues := queues[g := []];
      }
      ghost var cleared := queues;
      assert GuildOk(queues, sessions, g);
      if Active(SessionOf(g)) {
        var _ := OnTrackFinished(g);
        assert queues == cleared[g := []] == cleared;
      }
      assert OthersOk(queues, sessions, g);
      SetSession(queues, sessions, g, Disconnected);
      sessions := sessions[g := Disconnected];
      reply := StoppedAndDisconnected;
      assert GuildOk(queues, sessions, g);
    }

    /** The `queue` command's snapshot: nothing when g has no queue or it is empty. */
    method QueueSnapshot(g: string) returns (songs: Option<seq<Track>>)
      ensures songs.None? <==> Pending(g) == []
      ensures songs.Some? ==> g in queues && songs.value == queues[g]
    {
      if g !in queues || queues[g] == [] {
        return None;
      }
      songs := Some(queues[g]);
    }

    /** The `queue` command: a fresh paginated view over a copy of g's queue, for the caller only. */
    method ShowQueue(g: string, requesterId: int) returns (view: Views.QueueView?)
      ensures view == null <==> Pending(g) == []
      ensures view != null ==>
                fresh(view) && view.songs == queues[g] && view.requesterId == requesterId &&
                view.guildId == g && view.perPage == Views.DefaultPerPage && view.page == 0
    {
      var songs := QueueSnapshot(g);
      if songs.None? {
        return null;
      }
      view := new Views.QueueView(songs.value, requesterId, g);
    }
  }

  /**
   * Two users share a guild: the first play starts song A, a second play
   * queues song B behind it, A's end starts B, and stop empties everything.
   */
  method PlaybackScenario(g: string, a: Entry, b: Entry)
  {
    var bot := new MusicBot();
    var reply, started := bot.Play(g, true, "song A", _ => Some([a]));
    assert started == Some(ToTrack(a)) && bot.SessionOf(g) == Playing && bot.Pending(g) == [];
    reply, started := bot.Play(g, true, "song B", _ => Some([b]));
    assert started == None && bot.SessionOf(g) == Playing && bot.Pending(g) == [ToTrack(b)];
    started := bot.OnTrackFinished(g);
    assert started == Some(ToTrack(b)) && bot.Pending(g) == [];
    reply := bot.Stop(g);
    assert bot.SessionOf(g) == Disconnected && bot.Pending(g) == [];
  }
}
