/** The lifecycle theorems of the Responses emitter, and the exact condition under which they hold. */
module ResponsesTheorems {
  import opened Wrappers
  import opened Bytes
  import opened ChatStream
  import opened ResponsesSpec
  import opened ResponsesClient
  import opened ResponsesLifecycle

  lemma {:induction false} StreamWellBegun(frames: seq<seq<byte>>, decode: seq<byte> -> FrameKind)
    ensures WellBegun(StreamItems(frames, decode))
  {
    hide FrameItems;
    if frames != [] {
      var n := |frames| - 1;
      StreamWellBegun(frames[..n], decode);
      FrameWellBegun(frames[n], decode);
      WellBegunAppend(StreamItems(frames[..n], decode), FrameItems(frames[n], decode));
    }
  }

  lemma FrameWellBegun(frame: seq<byte>, decode: seq<byte> -> FrameKind)
    ensures WellBegun(FrameItems(frame, decode))
  {
    if decode(frame).ChatChunk? {
      var c := decode(frame).chunk;
      ChoicesWellBegun(c.choices);
      WellBegunAppend([Head(c.id, c.model, c.usage)], ChoicesItems(c.choices));
    }
  }

  /**
   Lifecycle. When no index changes its id and nothing speaks behind a finish reason, the client accepts the
   whole run: numbers in step, items added once, `.done` values equal to the deltas and to the terminal object.
   A run that opened and did not fail ends with every item done and one terminal event. The client's items hold
   what the emitter's fields hold.
   */
  lemma Lifecycle(invented: string, frames: seq<seq<byte>>, decode: seq<byte> -> FrameKind) returns (c: Client)
    requires NeverReuses(Initial(invented), StreamItems(frames, decode))
    requires QuietAfterFinish(Initial(invented), frames, decode)
    ensures var r := Run(Initial(invented), frames, decode);
            && AcceptAll(Fresh, r.evs + Terminated(r.st).evs) == Some(c)
            && c.view.marked == (r.st.started && !r.st.failed) && (c.view.marked ==> AllDone(c.view.items))
            && c.view.ended == (r.st.started || Over(r.st)) && c.view.ok == (!r.st.failed && (r.st.started || r.st.finished))
            && Holds(r.st, c.view.items)
  {
    hide Run, Gated, Accept, NeverReuses, QuietAfterFinish, StreamItems, Holds, Late;
    c := GatedLifecycle(invented, frames, decode);
    RunSplit(Initial(invented), frames, decode);
    var r, g := Run(Initial(invented), frames, decode), Gated(Initial(invented), StreamItems(frames, decode));
    assert g.evs + [] == g.evs;
    SameEnd(r.st, g.st);
    HoldsSame(g.st, r.st, c.view.items, c.view.items);
  }

  /** The end depends only on what the items depend on, and on nothing else once the stream is over. */
  lemma SameEnd(a: State, b: State)
    requires SameItems(a, b) && (Over(a) || a == b)
    ensures Terminated(a).evs == Terminated(b).evs
  {
    hide ItemsDone, TerminalOf;
  }

  /** The same for the run that stops item by item. */
  lemma GatedLifecycle(invented: string, frames: seq<seq<byte>>, decode: seq<byte> -> FrameKind) returns (c: Client)
    requires NeverReuses(Initial(invented), StreamItems(frames, decode))
    ensures var g := Gated(Initial(invented), StreamItems(frames, decode));
            && AcceptAll(Fresh, g.evs + Terminated(g.st).evs) == Some(c)
            && c.view.marked == (g.st.started && !g.st.failed) && (c.view.marked ==> AllDone(c.view.items))
            && c.view.ended == (g.st.started || Over(g.st)) && c.view.ok == (!g.st.failed && (g.st.started || g.st.finished))
            && Holds(g.st, c.view.items)
  {
    hide Gated, Accept, Related, NeverReuses, Terminated, StreamItems, Holds;
    var items := StreamItems(frames, decode);
    StreamWellBegun(frames, decode);
    var d := GatedAccepted(invented, items);
    var g := Gated(Initial(invented), items);
    c := TerminationAccepted(g.st, d);
    AcceptAppend(Fresh, g.evs, Terminated(g.st).evs);
  }

  // ---- A reused index is always caught

  /** Some call the emitter still lists is already done for the client. */
  predicate Stale(calls: seq<RespCall>, items: seq<RItem>) {
    exists a :: 0 <= a < |calls| && 0 <= calls[a].item < |items| && items[calls[a].item].phase == Done
  }

  lemma DonePersists(v: View, b: Body, i: nat)
    requires AcceptBody(v, b).Some? && i < |v.items| && v.items[i].phase == Done
    ensures var w := AcceptBody(v, b).value; i < |w.items| && w.items[i].phase == Done
  {
  }

  lemma {:induction false} DonePersistsAll(v: View, bodies: seq<Body>, i: nat)
    requires Reads(v, bodies).Some? && i < |v.items| && v.items[i].phase == Done
    ensures var w := Reads(v, bodies).value; i < |w.items| && w.items[i].phase == Done
  {
    hide AcceptBody;
    if bodies != [] {
      var n := |bodies| - 1;
      DonePersistsAll(v, bodies[..n], i);
      DonePersists(Reads(v, bodies[..n]).value, bodies[n], i);
    }
  }

  lemma {:induction false} CallsDoneRejected(v: View, calls: seq<RespCall>, a: nat)
    requires a < |calls| && 0 <= calls[a].item < |v.items| && v.items[calls[a].item].phase == Done
    ensures Reads(v, CallsDone(calls)).None?
  {
    hide AcceptBody;
    var n := |calls| - 1;
    ReadsAppend(v, CallsDone(calls[..n]), CallDone(calls[n]));
    if a < n {
      CallsDoneRejected(v, calls[..n], a);
    } else if Reads(v, CallsDone(calls[..n])).Some? {
      var w := Reads(v, CallsDone(calls[..n])).value;
      DonePersistsAll(v, CallsDone(calls[..n]), calls[a].item);
      ReadsTwo(w, CallDone(calls[n])[0], CallDone(calls[n])[1]);
      DoneRefused(w, calls[n]);
    }
  }

  lemma DoneRefused(w: View, c: RespCall)
    requires 0 <= c.item < |w.items| && w.items[c.item].phase == Done
    ensures AcceptBody(w, CallDone(c)[0]).None?
  {
  }

  /** With a stale call, closing the items is refused. */
  lemma {:induction false} ClosingRejected(st: State, v: View, more: seq<Body>)
    requires Stale(st.calls, v.items)
    ensures Reads(v, ItemsDone(st) + more).None?
  {
    hide AcceptBody;
    var a :| 0 <= a < |st.calls| && 0 <= st.calls[a].item < |v.items| && v.items[st.calls[a].item].phase == Done;
    var n := |ItemsDone(st)| - |CallsDone(st.calls)|;
    var head := ItemsDone(st)[..n];
    assert ItemsDone(st) == head + CallsDone(st.calls);
    ReadsAppend(v, ItemsDone(st), more);
    ReadsAppend(v, head, CallsDone(st.calls));
    if Reads(v, head).Some? {
      DonePersistsAll(v, head, st.calls[a].item);
      CallsDoneRejected(Reads(v, head).value, st.calls, a);
    }
  }

  /** Calls are only appended; an entry keeps its item. */
  lemma CallsKept(st: State, it: Item, a: nat)
    requires a < |st.calls|
    ensures var r := Says(st, it).st; a < |r.calls| && r.calls[a].item == st.calls[a].item
  {
    hide CallDone, Items, ItemsDone, TerminalOf, Texted, Reasoned, Finished, NotedAll, ArgsBody;
    if it.Finish? {
      FinishedKeeps(st, it.reason);
    } else if it.Prose? {
      ProseKeeps(st, it.s);
    }
  }

  lemma FinishedKeeps(st: State, reason: string)
    ensures Finished(st, reason).st.calls == st.calls
  {
    hide ItemsDone, TerminalOf;
  }

  lemma ProseKeeps(st: State, s: string)
    ensures Texted(st, s).st.calls == st.calls && Reasoned(st, s).st.calls == st.calls
  {
  }

  lemma {:induction false} StaleStep(st: State, v: View, it: Item)
    requires Stale(st.calls, v.items) && !Over(st) && Reads(v, Says(st, it).bodies).Some?
    ensures var r, w := Says(st, it).st, Reads(v, Says(st, it).bodies).value;
            r.failed || (!r.finished && Stale(r.calls, w.items))
  {
    hide AcceptBody, Reads;
    var a :| 0 <= a < |st.calls| && 0 <= st.calls[a].item < |v.items| && v.items[st.calls[a].item].phase == Done;
    if it.Finish? && it.reason != "error" {
      var f := Finished(st, it.reason).st;
      ClosingRejected(f, v, [TerminalOf(f)]);
      assert false;
    }
    CallsKept(st, it, a);
    DonePersistsAll(v, Says(st, it).bodies, st.calls[a].item);
    NotFinished(st, it);
  }

  lemma NotFinished(st: State, it: Item)
    requires !Over(st) && (it.Finish? ==> it.reason == "error")
    ensures var r := Says(st, it).st; r.failed || !r.finished
  {
  }

  /** The branch that reopens an index leaves its old call listed although it is done. */
  lemma {:induction false} ReuseIsStale(st: State, v: View, d: ToolDelta)
    requires Reuses(st, d) && Reads(v, Called(st, d).bodies).Some?
    ensures Stale(Called(st, d).st.calls, Reads(v, Called(st, d).bodies).value.items)
  {
    hide AcceptBody, Reads;
    var a := FirstCall(st.calls, d.index);
    var c, s := st.calls[a], NewCall(st, d);
    var rest := [ItemAdded(s.item, CallItem(s.id, s.name, ""))] + ArgsBody(s, d.args);
    Assoc(CallDone(c), [ItemAdded(s.item, CallItem(s.id, s.name, ""))], ArgsBody(s, d.args));
    ReadsAppend(v, CallDone(c), rest);
    var w := Reads(v, CallDone(c)).value;
    ReadsTwo(v, CallDone(c)[0], CallDone(c)[1]);
    MadeDone(AcceptBody(v, CallDone(c)[0]).value, c);
    DonePersistsAll(w, rest, c.item);
    assert Called(st, d).st.calls[a] == c;
  }

  lemma MadeDone(v: View, c: RespCall)
    requires AcceptBody(v, CallDone(c)[1]).Some?
    ensures var w := AcceptBody(v, CallDone(c)[1]).value; 0 <= c.item < |w.items| && w.items[c.item].phase == Done
  {
  }

  /** As long as the client accepts, its count is the emitter's. */
  lemma {:induction false} CountsAgree(invented: string, items: seq<Item>)
    requires AcceptAll(Fresh, Gated(Initial(invented), items).evs).Some?
    ensures AcceptAll(Fresh, Gated(Initial(invented), items).evs).value.n == Gated(Initial(invented), items).st.seqNo
  {
    hide Says, AcceptBody;
    if items != [] {
      var n := |items| - 1;
      var p := Gated(Initial(invented), items[..n]);
      var evs := if Over(p.st) then [] else Step(p.st, items[n]).evs;
      AcceptAppend(Fresh, p.evs, evs);
      CountsAgree(invented, items[..n]);
      StepCounts(p.st, AcceptAll(Fresh, p.evs).value, items[n]);
    }
  }

  lemma {:induction false} StepCounts(st: State, c: Client, it: Item)
    requires c.n == st.seqNo
    ensures AcceptAll(c, Step(st, it).evs).Some? ==>
              var d := AcceptAll(c, Step(st, it).evs).value;
              && d.n == Step(st, it).st.seqNo
              && (!it.Forward? ==> Reads(c.view, Says(st, it).bodies) == Some(d.view))
              && (it.Forward? ==> d == c)
  {
    hide AcceptBody, Says;
    if it.Forward? {
      AcceptOne(c, Forwarded(it.frame));
    } else {
      SaysKeepsCount(st, it);
      NumberedReads(c, Says(st, it).bodies);
    }
  }

  /** After a reuse the run can only fail or stay stale while it is accepted. */
  lemma {:induction false} StaleAfterReuse(invented: string, items: seq<Item>, i: nat)
    requires i < |items| && items[i].Tool?
    requires var s := Gated(Initial(invented), items[..i]).st; !Over(s) && Reuses(s, items[i].d)
    requires AcceptAll(Fresh, Gated(Initial(invented), items).evs).Some?
    requires !Gated(Initial(invented), items).st.failed
    ensures var r := Gated(Initial(invented), items);
            !Over(r.st) && Stale(r.st.calls, AcceptAll(Fresh, r.evs).value.view.items)
  {
    hide Says, AcceptBody, Reuses, Stale;
    var n := |items| - 1;
    var p := Gated(Initial(invented), items[..n]);
    var evs := if Over(p.st) then [] else Step(p.st, items[n]).evs;
    AcceptAppend(Fresh, p.evs, evs);
    CountsAgree(invented, items[..n]);
    var c := AcceptAll(Fresh, p.evs).value;
    if i == n {
      StepCounts(p.st, c, items[n]);
      ReuseStep(p.st, c, items[n]);
    } else {
      assert items[..n][..i] == items[..i];
      StaleAfterReuse(invented, items[..n], i);
      StepCounts(p.st, c, items[n]);
      if !items[n].Forward? { StaleStep(p.st, c.view, items[n]); }
    }
  }

  lemma ReuseStep(st: State, c: Client, it: Item)
    requires it.Tool? && !Over(st) && Reuses(st, it.d) && Reads(c.view, Says(st, it).bodies).Some?
    ensures !Over(Says(st, it).st) && Stale(Says(st, it).st.calls, Reads(c.view, Says(st, it).bodies).value.items)
  {
    hide Reads, Reuses, Stale;
    ReuseIsStale(st, c.view, it.d);
  }

  /** A run that stops item by item is accepted if and only if no index is reopened. */
  lemma {:induction false} GatedExactly(invented: string, frames: seq<seq<byte>>, decode: seq<byte> -> FrameKind)
    requires var g := Gated(Initial(invented), StreamItems(frames, decode)); g.st.started && !g.st.failed
    ensures var g := Gated(Initial(invented), StreamItems(frames, decode));
            AcceptAll(Fresh, g.evs + Terminated(g.st).evs).Some?
            <==> NeverReuses(Initial(invented), StreamItems(frames, decode))
  {
    hide Gated, Accept, Reuses, Stale, Terminated, StreamItems;
    var s0, items := Initial(invented), StreamItems(frames, decode);
    var g := Gated(s0, items);
    if NeverReuses(s0, items) {
      var c := GatedLifecycle(invented, frames, decode);
    } else {
      var i :| 0 <= i < |items| && items[i].Tool?
               && !(var s := Gated(s0, items[..i]).st; Over(s) || !Reuses(s, items[i].d));
      AcceptAppend(Fresh, g.evs, Terminated(g.st).evs);
      if AcceptAll(Fresh, g.evs).Some? {
        StaleAfterReuse(invented, items, i);
        CountsAgree(invented, items);
        StaleEnd(g.st, AcceptAll(Fresh, g.evs).value);
      }
    }
  }

  /**
   The exact condition. For a run that opened a message and did not fail, the client accepts it if and only if
   no delta ever met the guard of the branch that reopens an index under a fresh id, and nothing spoke behind a
   finish reason in its chunk.
   */
  lemma {:induction false} LifecycleExactly(invented: string, frames: seq<seq<byte>>, decode: seq<byte> -> FrameKind)
    requires var r := Run(Initial(invented), frames, decode); r.st.started && !r.st.failed
    ensures var r := Run(Initial(invented), frames, decode);
            AcceptAll(Fresh, r.evs + Terminated(r.st).evs).Some?
            <==> NeverReuses(Initial(invented), StreamItems(frames, decode))
                 && QuietAfterFinish(Initial(invented), frames, decode)
  {
    hide Run, Gated, Accept, NeverReuses, QuietAfterFinish, StreamItems, Late;
    var s0 := Initial(invented);
    var r, g, late := Run(s0, frames, decode), Gated(s0, StreamItems(frames, decode)), Late(s0, frames, decode);
    RunSplit(s0, frames, decode);
    if QuietAfterFinish(s0, frames, decode) {
      assert g.evs + [] == g.evs;
      SameEnd(r.st, g.st);
      GatedExactly(invented, frames, decode);
    } else {
      AcceptAppend(Fresh, r.evs, Terminated(r.st).evs);
      AcceptAppend(Fresh, g.evs, late);
      if AcceptAll(Fresh, g.evs).Some? {
        OverIsEnded(invented, StreamItems(frames, decode));
        LateIsAuthored(s0, frames, decode);
        assert late[0] in late;
        NothingAfterTheEnd(AcceptAll(Fresh, g.evs).value, late, 0);
      }
    }
  }

  /** The body that ends the stream ends it for the client. */
  lemma {:induction false} EndingBody(st: State, v: View, it: Item)
    requires !Over(st) && Over(Says(st, it).st) && Reads(v, Says(st, it).bodies).Some?
    ensures Reads(v, Says(st, it).bodies).value.ended
  {
    hide AcceptBody, Reads, ItemsDone, TerminalOf;
    StopsOnly(st, it);
    var bodies := Says(st, it).bodies;
    var n := |bodies| - 1;
    assert bodies == bodies[..n] + [bodies[n]];
    ReadsAppend(v, bodies[..n], [bodies[n]]);
    var w := Reads(v, bodies[..n]).value;
    ReadsOne(w, bodies[n]);
    LastEnds(w, bodies[n]);
  }

  lemma StopsOnly(st: State, it: Item)
    requires !Over(st) && Over(Says(st, it).st)
    ensures var bodies := Says(st, it).bodies;
            bodies != [] && (bodies[|bodies| - 1].Terminal? || bodies[|bodies| - 1].ErrorBody?)
  {
    hide ItemsDone, Items;
  }

  lemma LastEnds(v: View, b: Body)
    requires (b.Terminal? || b.ErrorBody?) && AcceptBody(v, b).Some?
    ensures AcceptBody(v, b).value.ended
  {
    hide Output;
  }

  /** As long as the client accepts, it knows when the stream is over. */
  lemma {:induction false} OverIsEnded(invented: string, items: seq<Item>)
    requires AcceptAll(Fresh, Gated(Initial(invented), items).evs).Some? && Over(Gated(Initial(invented), items).st)
    ensures AcceptAll(Fresh, Gated(Initial(invented), items).evs).value.view.ended
  {
    hide Says, AcceptBody;
    if items != [] {
      var n := |items| - 1;
      var p := Gated(Initial(invented), items[..n]);
      var evs := if Over(p.st) then [] else Step(p.st, items[n]).evs;
      AcceptAppend(Fresh, p.evs, evs);
      if Over(p.st) {
        OverIsEnded(invented, items[..n]);
      } else {
        CountsAgree(invented, items[..n]);
        var c := AcceptAll(Fresh, p.evs).value;
        StepCounts(p.st, c, items[n]);
        EndingBody(p.st, c.view, items[n]);
      }
    }
  }

  lemma {:induction false} StaleEnd(st: State, c: Client)
    requires st.started && !Over(st) && c.n == st.seqNo && Stale(st.calls, c.view.items)
    ensures AcceptAll(c, Terminated(st).evs).None?
  {
    hide AcceptBody, Stale;
    ClosingRejected(st, c.view, [TerminalOf(st)]);
    NumberedReads(c, ItemsDone(st) + [TerminalOf(st)]);
    AcceptAppend(c, Numbered(st.seqNo, ItemsDone(st) + [TerminalOf(st)]), [DoneMark]);
  }

  /** After a terminal or error event the client refuses every further authored event. */
  lemma {:induction false} NothingAfterTheEnd(c: Client, evs: seq<Event>, i: nat)
    requires c.view.ended && i < |evs| && evs[i].Ev?
    ensures AcceptAll(c, evs).None?
  {
    var n := |evs| - 1;
    if i < n {
      NothingAfterTheEnd(c, evs[..n], i);
    } else if AcceptAll(c, evs[..n]).Some? {
      StaysEnded(c, evs[..n]);
    }
  }

  lemma {:induction false} StaysEnded(c: Client, evs: seq<Event>)
    requires c.view.ended && AcceptAll(c, evs).Some?
    ensures AcceptAll(c, evs).value.view.ended
  {
    if evs != [] { StaysEnded(c, evs[..|evs| - 1]); }
  }
}
