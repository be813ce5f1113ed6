/** The per-window callback of `lswin` and the fold of it over the enumerated
    windows, threading the context (flags, id filter, found count) and the
    emitted output; plus the rule that turns the final count into an exit code. */
module LsWin {

  import opened Wrappers
  import opened Windows
  import opened Render

  /** The context the callback reads and updates. The two display flags are the
      source's C ints used as truth values; `numFound` is unbounded here. */
  datatype Ctx = Ctx(longDisplay: bool, id: int, numFound: nat, jsonMode: bool)

  /** The id filter: -1 lets every window through, any other value only the
      window with that id. */
  predicate Wanted(id: int, w: WindowRecord) {
    id == -1 || id == w.windowId
  }

  function ModeOfCtx(ctx: Ctx): Mode {
    ModeOf(ctx.jsonMode, ctx.longDisplay)
  }

  /** What one callback call, or a run of them, leaves behind. */
  datatype Step = Step(ctx: Ctx, out: seq<Item>)

  /** The callback for one window: a wanted window emits exactly one item in the
      context's mode and bumps the count by one; any other window emits nothing
      and leaves the context as it was. */
  function PrintWindow(ctx: Ctx, w: WindowRecord): (r: Step)
    ensures r.ctx == ctx.(numFound := r.ctx.numFound)
    ensures r.ctx.numFound == ctx.numFound + |r.out|
    ensures |r.out| == 1 <==> Wanted(ctx.id, w)
    ensures |r.out| == 0 <==> !Wanted(ctx.id, w)
    ensures forall i :: 0 <= i < |r.out| ==> r.out[i] == RenderWindow(ModeOfCtx(ctx), w)
  {
    if Wanted(ctx.id, w) then
      Step(ctx.(numFound := ctx.numFound + 1), [RenderWindow(ModeOfCtx(ctx), w)])
    else
      Step(ctx, [])
  }

  /** The callback applied to each window in enumeration order. */
  function Enumerate(ctx: Ctx, ws: seq<WindowRecord>): (r: Step)
    ensures r.ctx == ctx.(numFound := r.ctx.numFound)
    ensures r.ctx.numFound == ctx.numFound + |r.out|
    ensures |r.out| <= |ws|
    decreases |ws|
  {
    if |ws| == 0 then Step(ctx, [])
    else
      var before := Enumerate(ctx, ws[..|ws| - 1]);
      var last := PrintWindow(before.ctx, ws[|ws| - 1]);
      Step(last.ctx, before.out + last.out)
  }

  /** The windows the id filter keeps, in enumeration order: the reference the
      fold is compared against. */
  function Selected(id: int, ws: seq<WindowRecord>): (r: seq<WindowRecord>)
    ensures |r| <= |ws|
    ensures forall i :: 0 <= i < |r| ==> Wanted(id, r[i]) && r[i] in ws
    ensures forall i :: 0 <= i < |ws| && Wanted(id, ws[i]) ==> ws[i] in r
    decreases |ws|
  {
    if |ws| == 0 then []
    else
      var init := Selected(id, ws[..|ws| - 1]);
      assert forall i :: 0 <= i < |ws| - 1 ==> ws[..|ws| - 1][i] == ws[i];
      if Wanted(id, ws[|ws| - 1]) then init + [ws[|ws| - 1]] else init
  }

  /** Each window rendered in the given mode, one item per window. */
  function RenderAll(m: Mode, ws: seq<WindowRecord>): (r: seq<Item>)
    ensures |r| == |ws|
  {
    seq(|ws|, i requires 0 <= i < |ws| => RenderWindow(m, ws[i]))
  }

  /** Rendering one more window appends its item. */
  lemma RenderAllAppend(m: Mode, ws: seq<WindowRecord>, w: WindowRecord)
    ensures RenderAll(m, ws + [w]) == RenderAll(m, ws) + [RenderWindow(m, w)]
  {
    var l, r := RenderAll(m, ws + [w]), RenderAll(m, ws) + [RenderWindow(m, w)];
    forall i | 0 <= i < |l|
      ensures l[i] == r[i]
    {
      assert (ws + [w])[i] == if i < |ws| then ws[i] else w;
    }
  }

  /** The fold emits the selected windows' items in order, nothing else, and
      counts exactly the selected windows. */
  lemma {:induction false} EnumerateRendersSelection(ctx: Ctx, ws: seq<WindowRecord>)
    ensures Enumerate(ctx, ws).out == RenderAll(ModeOfCtx(ctx), Selected(ctx.id, ws))
    ensures Enumerate(ctx, ws).ctx.numFound == ctx.numFound + |Selected(ctx.id, ws)|
    decreases |ws|
  {
    if |ws| > 0 {
      var init, w := ws[..|ws| - 1], ws[|ws| - 1];
      EnumerateRendersSelection(ctx, init);
      var m := ModeOfCtx(ctx);
      var sel := Selected(ctx.id, init);
      if Wanted(ctx.id, w) {
        RenderAllAppend(m, sel, w);
      }
    }
  }

  /** With the id filter at -1 every enumerated window is selected. */
  lemma {:induction false} UnfilteredSelectsAll(ws: seq<WindowRecord>)
    ensures Selected(-1, ws) == ws
    decreases |ws|
  {
    if |ws| > 0 {
      UnfilteredSelectsAll(ws[..|ws| - 1]);
      assert ws[..|ws| - 1] + [ws[|ws| - 1]] == ws;
    }
  }

  /** An id that no enumerated window has selects nothing. */
  lemma {:induction false} AbsentIdSelectsNothing(id: int, ws: seq<WindowRecord>)
    requires id != -1
    requires forall i :: 0 <= i < |ws| ==> ws[i].windowId != id
    ensures Selected(id, ws) == []
    decreases |ws|
  {
    if |ws| > 0 {
      AbsentIdSelectsNothing(id, ws[..|ws| - 1]);
    }
  }

  /** An id that exactly one enumerated window has selects exactly that window. */
  lemma {:induction false} UniqueIdSelectsOne(id: int, ws: seq<WindowRecord>, j: nat)
    requires id != -1
    requires j < |ws| && ws[j].windowId == id
    requires forall i :: 0 <= i < |ws| && i != j ==> ws[i].windowId != id
    ensures Selected(id, ws) == [ws[j]]
    decreases |ws|
  {
    var init := ws[..|ws| - 1];
    if j == |ws| - 1 {
      AbsentIdSelectsNothing(id, init);
    } else {
      UniqueIdSelectsOne(id, init, j);
    }
  }

  /** Unfiltered, the count grows by the number of enumerated windows. */
  lemma CountUnfiltered(ctx: Ctx, ws: seq<WindowRecord>)
    requires ctx.id == -1
    ensures Enumerate(ctx, ws).ctx.numFound == ctx.numFound + |ws|
  {
    EnumerateRendersSelection(ctx, ws);
    UnfilteredSelectsAll(ws);
  }

  /** In JSON mode the output is exactly one JSON object per selected window,
      back to back, with no text of any kind between them. */
  lemma JsonModeEmitsOnlyObjects(ctx: Ctx, ws: seq<WindowRecord>)
    requires ctx.jsonMode
    ensures var out := Enumerate(ctx, ws).out;
            var sel := Selected(ctx.id, ws);
            |out| == |sel| && forall i :: 0 <= i < |out| ==> out[i] == JsonText(JsonOf(sel[i]))
  {
    EnumerateRendersSelection(ctx, ws);
  }

  /** The process exit code: success when anything was found, or when nothing
      was asked for (no pattern and no id filter); failure otherwise. */
  function ExitStatus(numFound: nat, pattern: Option<string>, id: int): (code: int)
    ensures code == 0 || code == 1
    ensures code == 0 <==> numFound > 0 || (pattern.None? && id == -1)
  {
    if numFound > 0 || (pattern == None && id == -1) then 0 else 1
  }

}
