/**
 * The post-effect compositor (`Reference.RenderEffect`): a ping-pong pair of
 * render textures and an `Output` texture at the camera image size shifted
 * right by `downSample`, reallocated when that size changes; each frame the
 * camera image is copied in, run through every effect material in order,
 * copied to `Output`, and either `Output` or the untouched camera image is
 * shown.
 */
module Compositor {
  import opened CSharp
  import opened Gpu
  import opened RenderUtility

  /** The effect materials applied in order, the first one first. */
  function Chain(ms: seq<Material>, p: Pixels): Pixels
  {
    if ms == [] then p else Chain(ms[1..], Shaded(ms[0], p))
  }

  /** The same pipeline described from its last pass: the last material is
      applied to the result of all the others. */
  function Layered(ms: seq<Material>, p: Pixels): Pixels
  {
    if ms == [] then p else Shaded(ms[|ms| - 1], Layered(ms[..|ms| - 1], p))
  }

  /** Running two effect lists one after the other is running their
      concatenation. */
  lemma {:induction false} ChainAppend(a: seq<Material>, b: seq<Material>, p: Pixels)
    ensures Chain(a + b, p) == Chain(b, Chain(a, p))
    decreases |a|
  {
    if a != [] {
      assert (a + b)[1..] == a[1..] + b;
      ChainAppend(a[1..], b, Shaded(a[0], p));
    } else {
      assert a + b == b;
    }
  }

  /** The front-to-back and back-to-front descriptions agree. */
  lemma {:induction false} ChainIsLayered(ms: seq<Material>, p: Pixels)
    ensures Chain(ms, p) == Layered(ms, p)
    decreases |ms|
  {
    if ms != [] {
      var init, last := ms[..|ms| - 1], ms[|ms| - 1];
      assert ms == init + [last];
      ChainAppend(init, [last], p);
      ChainIsLayered(init, p);
      assert Chain([last], Chain(init, p)) == Shaded(last, Chain(init, p));
    }
  }

  /** Which of the pair `a`, `b` is `rts[0]` after `i` swaps: each swap
      exchanges the roles of the two. */
  function Front(a: nat, b: nat, i: nat): (r: nat)
    ensures r == if i % 2 == 0 then a else b
    decreases i
  {
    if i == 0 then a else Front(b, a, i - 1)
  }

  /** Each swap exchanges the two textures of the pair. */
  lemma {:induction false} FrontAlternates(a: nat, b: nat, i: nat)
    requires a != b
    ensures Front(a, b, i + 1) != Front(a, b, i) && Front(a, b, i + 2) == Front(a, b, i)
    decreases i
  {
    if i > 0 {
      FrontAlternates(b, a, i - 1);
    }
  }

  /** The blits of the effect loop over `ms`, starting with `rts` = [a, b]:
      pass i reads the current front texture and writes the other one. */
  function EffectEvents(a: nat, b: nat, ms: seq<Material>): (r: seq<Event>)
    ensures |r| == |ms|
  {
    if ms == [] then []
    else
      var i := |ms| - 1;
      EffectEvents(a, b, ms[..i]) + [Event.Blit(Some(Front(a, b, i)), Some(Front(a, b, i + 1)), Some(ms[i]))]
  }

  /** The effect passes alternate between the two textures: pass i reads the
      texture pass i - 1 wrote. */
  lemma {:induction false} EffectEventsAlternate(a: nat, b: nat, ms: seq<Material>)
    requires a != b
    ensures forall i :: 0 <= i < |ms| ==>
      EffectEvents(a, b, ms)[i].Blit?
      && EffectEvents(a, b, ms)[i].src != EffectEvents(a, b, ms)[i].dst
      && EffectEvents(a, b, ms)[i].material == Some(ms[i])
    ensures forall i, j :: 0 <= i < j < |ms| && j == i + 1 ==>
      EffectEvents(a, b, ms)[i].Blit? && EffectEvents(a, b, ms)[j].Blit?
      && EffectEvents(a, b, ms)[j].src == EffectEvents(a, b, ms)[i].dst
    decreases |ms|
  {
    if ms != [] {
      var i := |ms| - 1;
      EffectEventsAlternate(a, b, ms[..i]);
      FrontAlternates(a, b, i);
      var prefix := EffectEvents(a, b, ms[..i]);
      var all := EffectEvents(a, b, ms);
      assert forall j :: 0 <= j < i ==> all[j] == prefix[j] && ms[..i][j] == ms[j];
    }
  }

  /** The effect loop issues only blits. */
  lemma {:induction false} EffectEventsSilent(a: nat, b: nat, ms: seq<Material>)
    ensures Silent(EffectEvents(a, b, ms))
    decreases |ms|
  {
    if ms != [] {
      var i := |ms| - 1;
      EffectEventsSilent(a, b, ms[..i]);
      var prefix := EffectEvents(a, b, ms[..i]);
      assert forall j :: 0 <= j < i ==> EffectEvents(a, b, ms)[j] == prefix[j];
    }
  }

  /** The handles of the non-null references in `ts`. */
  function IdSet(ts: seq<TexRef>): set<nat>
  {
    if ts == [] then {} else IdSet(ts[..|ts| - 1]) + Ids(ts[|ts| - 1])
  }

  /** `x` and `y` do not name the same texture. */
  predicate Apart(x: TexRef, y: TexRef)
  {
    x.None? || x != y
  }

  /** The pair and `Output` exist and are `w` x `h`. */
  predicate Prepared(s: EngineState, a: TexRef, b: TexRef, out: TexRef, w: int, h: int)
  {
    && s.Present(a) && s.Present(b) && s.Present(out)
    && HasSize(s, a.value, w, h) && HasSize(s, b.value, w, h) && HasSize(s, out.value, w, h)
  }

  /** The compositor's handles in state `s`: allocated, pairwise distinct,
      and, once `rts[0]` exists, all three existing at one size. */
  predicate Holds(s: EngineState, a: TexRef, b: TexRef, out: TexRef)
  {
    && s.Valid()
    && s.Known(a) && s.Known(b) && s.Known(out)
    && Apart(a, b) && Apart(a, out) && Apart(b, out)
    && (s.Present(a) ==> Prepared(s, a, b, out, s.store[a.value].width, s.store[a.value].height))
  }

  /** Repainting textures keeps the compositor's handles as they were. */
  lemma HoldsRepainted(s0: EngineState, s1: EngineState, a: TexRef, b: TexRef, out: TexRef)
    requires Holds(s0, a, b, out) && s0.Present(a) && Repainted(s0, s1) && s1.Valid()
    ensures Holds(s1, a, b, out) && Holds(s1, b, a, out)
  {
  }

  /** Holding the pair in either order is holding it after any number of
      swaps. */
  lemma HoldsFront(s: EngineState, a: nat, b: nat, out: TexRef, i: nat)
    requires Holds(s, Some(a), Some(b), out) && Holds(s, Some(b), Some(a), out)
    ensures Holds(s, Some(Front(a, b, i)), Some(Front(a, b, i + 1)), out)
  {
    if a != b {
      FrontAlternates(a, b, i);
    }
  }

  /** `t` is either `t0` or a texture that did not exist in `s0`. */
  predicate Renewed(s0: EngineState, t0: TexRef, t: TexRef)
  {
    t == t0 || (t.Some? && t.value !in s0.store)
  }

  /** The handles the `CheckRTs` loop acquired, and the engine after. */
  datatype Acquisitions = Acquisitions(state: EngineState, ids: seq<nat>)

  /** Every handle of `olds` is null or allocated in `s`. */
  predicate AllKnown(s: EngineState, olds: seq<TexRef>)
  {
    forall j :: 0 <= j < |olds| ==> s.Known(olds[j])
  }

  /** `rts[i] = CreateRenderTexture(w, h, depth, format, wrap, filter, rts[i])`
      for each i in order, from state `s`. */
  function AcquireEach(s: EngineState, olds: seq<TexRef>, w: int, h: int, depth: int, format: Format,
                       wrap: WrapMode, filter: FilterMode): (r: Acquisitions)
    requires s.Valid() && AllKnown(s, olds)
    ensures |r.ids| == |olds| && r.state.Valid() && s.store.Keys <= r.state.store.Keys
    decreases |olds|
  {
    if olds == [] then Acquisitions(s, [])
    else
      var n := |olds| - 1;
      var p := AcquireEach(s, olds[..n], w, h, depth, format, wrap, filter);
      assert s.Known(olds[n]);
      var a := Acquire(p.state, olds[n], w, h, depth, format, wrap, filter);
      Acquisitions(a.state, p.ids + [a.id])
  }

  /** The textures `CheckRTs` ends with after reallocating, and the engine. */
  datatype Reallocation = Reallocation(state: EngineState, a: nat, b: nat, out: nat)

  /** The commands of the reallocating branch of `CheckRTs` from state `s`:
      the pair, then `Output`, then the `OnCreateTex` notification. Its only
      notification is that one. */
  function ReallocEvents(s: EngineState, a0: TexRef, b0: TexRef, out0: TexRef,
                         a: nat, b: nat, out: nat, w: int, h: int): (r: seq<Event>)
    ensures Notifications(r) == [TextureCreated(Some(out))]
  {
    var ea, eb, eo := AcquireEvents(s, a0, a, w, h), AcquireEvents(s, b0, b, w, h), AcquireEvents(s, out0, out, w, h);
    SilentHasNoNotifications(ea);
    SilentHasNoNotifications(eb);
    SilentHasNoNotifications(eo);
    NotificationsAppend(ea, eb);
    NotificationsAppend(ea + eb, eo);
    NotificationsAppend(ea + eb + eo, [TextureCreated(Some(out))]);
    assert Notifications([TextureCreated(Some(out))]) == [TextureCreated(Some(out))] by {
      assert [TextureCreated(Some(out))][..0] == [];
    }
    ea + eb + eo + [TextureCreated(Some(out))]
  }

  /** The two acquisitions of the `CheckRTs` loop from state `s`. */
  function ReallocPair(s: EngineState, a0: TexRef, b0: TexRef, out0: TexRef, w: int, h: int,
                       format: Format, wrap: WrapMode): (r: Acquisitions)
    requires Holds(s, a0, b0, out0)
    ensures |r.ids| == 2 && r.state.Valid() && s.store.Keys <= r.state.store.Keys
  {
    var a := Acquire(s, a0, w, h, 16, format, wrap, Bilinear);
    var b := Acquire(a.state, b0, w, h, 16, format, wrap, Bilinear);
    Acquisitions(b.state, [a.id, b.id])
  }

  /** The pair ends up as two distinct live textures of the requested size,
      each `a0`/`b0` or one that did not exist. */
  lemma ReallocPairSound(s: EngineState, a0: TexRef, b0: TexRef, out0: TexRef, w: int, h: int,
                         format: Format, wrap: WrapMode)
    requires Holds(s, a0, b0, out0)
    ensures var r := ReallocPair(s, a0, b0, out0, w, h, format, wrap);
      && r.ids[0] != r.ids[1]
      && r.state.Present(Some(r.ids[0])) && r.state.Present(Some(r.ids[1]))
      && HasSize(r.state, r.ids[0], w, h) && HasSize(r.state, r.ids[1], w, h)
      && Renewed(s, a0, Some(r.ids[0])) && Renewed(s, b0, Some(r.ids[1]))
  {
    var a := Acquire(s, a0, w, h, 16, format, wrap, Bilinear);
    AcquireSound(s, a0, w, h, 16, format, wrap, Bilinear);
    AcquireSound(a.state, b0, w, h, 16, format, wrap, Bilinear);
    AcquireFramed(a.state, b0, w, h, 16, format, wrap, Bilinear);
  }

  /** Acquiring the pair affects no texture but `a0` and `b0`, neither the
      active target nor the back buffer. */
  lemma ReallocPairFramed(s: EngineState, a0: TexRef, b0: TexRef, out0: TexRef, w: int, h: int,
                          format: Format, wrap: WrapMode)
    requires Holds(s, a0, b0, out0)
    ensures var r := ReallocPair(s, a0, b0, out0, w, h, format, wrap);
      && Framed(s, r.state, Ids(a0) + Ids(b0))
      && r.state.trace == s.trace + AcquireEvents(s, a0, r.ids[0], w, h) + AcquireEvents(s, b0, r.ids[1], w, h)
  {
    var a := Acquire(s, a0, w, h, 16, format, wrap, Bilinear);
    AcquireFramed(s, a0, w, h, 16, format, wrap, Bilinear);
    var b := Acquire(a.state, b0, w, h, 16, format, wrap, Bilinear);
    AcquireFramed(a.state, b0, w, h, 16, format, wrap, Bilinear);
    AcquireUnaffected(s, a.state, Ids(a0), b0, b.id, w, h);
    FramedTrans(s, a.state, b.state, Ids(a0), Ids(b0));
  }

  /** One more handle acquires one more texture after the others. */
  lemma {:induction false} AcquireEachSnoc(s: EngineState, olds: seq<TexRef>, t: TexRef, w: int, h: int,
                                           format: Format, wrap: WrapMode)
    requires s.Valid() && AllKnown(s, olds + [t])
    ensures AllKnown(s, olds) && s.Known(t)
    ensures var p := AcquireEach(s, olds, w, h, 16, format, wrap, Bilinear);
      var a := Acquire(p.state, t, w, h, 16, format, wrap, Bilinear);
      AcquireEach(s, olds + [t], w, h, 16, format, wrap, Bilinear) == Acquisitions(a.state, p.ids + [a.id])
  {
    assert (olds + [t])[..|olds|] == olds;
    assert forall j :: 0 <= j < |olds| ==> olds[j] == (olds + [t])[j];
    assert (olds + [t])[|olds|] == t;
  }

  /** For the pair, the loop is `ReallocPair`. */
  lemma AcquireEachPair(s: EngineState, a0: TexRef, b0: TexRef, out0: TexRef, w: int, h: int,
                        format: Format, wrap: WrapMode)
    requires Holds(s, a0, b0, out0)
    ensures AcquireEach(s, [a0, b0], w, h, 16, format, wrap, Bilinear) == ReallocPair(s, a0, b0, out0, w, h, format, wrap)
  {
    assert [] + [a0] == [a0] && [a0] + [b0] == [a0, b0];
    AcquireEachSnoc(s, [], a0, w, h, format, wrap);
    AcquireEachSnoc(s, [a0], b0, w, h, format, wrap);
  }

  /** The reallocating branch of `CheckRTs` from state `s` at size `w` x `h`:
      the pair, then `Output`, then the `OnCreateTex` notification. */
  function Realloc(s: EngineState, a0: TexRef, b0: TexRef, out0: TexRef, w: int, h: int,
                   format: Format, wrap: WrapMode): Reallocation
    requires Holds(s, a0, b0, out0)
  {
    var p := ReallocPair(s, a0, b0, out0, w, h, format, wrap);
    var o := Acquire(p.state, out0, w, h, 16, format, wrap, Bilinear);
    Reallocation(o.state.(trace := o.state.trace + [TextureCreated(Some(o.id))]), p.ids[0], p.ids[1], o.id)
  }

  /**
   * After reallocating at size `w` x `h`, the pair and `Output` are each
   * kept when already that size and otherwise replaced by a texture that
   * did not exist before; all three are live, that size and pairwise
   * distinct.
   */
  lemma ReallocPrepared(s: EngineState, a0: TexRef, b0: TexRef, out0: TexRef, w: int, h: int,
                        format: Format, wrap: WrapMode)
    requires Holds(s, a0, b0, out0)
    ensures var r := Realloc(s, a0, b0, out0, w, h, format, wrap);
      && Holds(r.state, Some(r.a), Some(r.b), Some(r.out))
      && Prepared(r.state, Some(r.a), Some(r.b), Some(r.out), w, h)
      && Renewed(s, a0, Some(r.a)) && Renewed(s, b0, Some(r.b)) && Renewed(s, out0, Some(r.out))
  {
    var p := ReallocPair(s, a0, b0, out0, w, h, format, wrap);
    ReallocPairSound(s, a0, b0, out0, w, h, format, wrap);
    AcquireSound(p.state, out0, w, h, 16, format, wrap, Bilinear);
    AcquireFramed(p.state, out0, w, h, 16, format, wrap, Bilinear);
    var r := Realloc(s, a0, b0, out0, w, h, format, wrap);
    PreparedHolds(r.state, r.a, r.b, r.out, w, h);
  }

  /** Three distinct live textures of one size are a valid set of handles. */
  lemma PreparedHolds(s: EngineState, a: nat, b: nat, out: nat, w: int, h: int)
    requires s.Valid() && Prepared(s, Some(a), Some(b), Some(out), w, h)
    requires a != b && a != out && b != out
    ensures Holds(s, Some(a), Some(b), Some(out))
  {
  }

  /** Reallocating affects no texture but the pair and `Output`, neither the
      active target nor the back buffer. */
  lemma ReallocFramed(s: EngineState, a0: TexRef, b0: TexRef, out0: TexRef, w: int, h: int,
                      format: Format, wrap: WrapMode)
    requires Holds(s, a0, b0, out0)
    ensures var r := Realloc(s, a0, b0, out0, w, h, format, wrap);
      Framed(s, r.state, Ids(a0) + Ids(b0) + Ids(out0))
  {
    var p := ReallocPair(s, a0, b0, out0, w, h, format, wrap);
    ReallocPairFramed(s, a0, b0, out0, w, h, format, wrap);
    var o := Acquire(p.state, out0, w, h, 16, format, wrap, Bilinear);
    AcquireFramed(p.state, out0, w, h, 16, format, wrap, Bilinear);
    FramedTrans(s, p.state, o.state, Ids(a0) + Ids(b0), Ids(out0));
    FramedRetrace(s, o.state, Ids(a0) + Ids(b0) + Ids(out0), o.state.trace + [TextureCreated(Some(o.id))]);
  }

  /** Acquiring the pair does not change how `Output` is then acquired. */
  lemma ReallocPairSpares(s: EngineState, a0: TexRef, b0: TexRef, out0: TexRef, w: int, h: int,
                          format: Format, wrap: WrapMode, id: nat)
    requires Holds(s, a0, b0, out0)
    ensures var p := ReallocPair(s, a0, b0, out0, w, h, format, wrap);
      AcquireEvents(p.state, out0, id, w, h) == AcquireEvents(s, out0, id, w, h)
  {
    var p := ReallocPair(s, a0, b0, out0, w, h, format, wrap);
    ReallocPairFramed(s, a0, b0, out0, w, h, format, wrap);
    AcquireUnaffected(s, p.state, Ids(a0) + Ids(b0), out0, id, w, h);
  }

  /** Reallocating issues `ReallocEvents`. */
  lemma ReallocTrace(s: EngineState, a0: TexRef, b0: TexRef, out0: TexRef, w: int, h: int,
                     format: Format, wrap: WrapMode)
    requires Holds(s, a0, b0, out0)
    ensures var r := Realloc(s, a0, b0, out0, w, h, format, wrap);
      r.state.trace == s.trace + ReallocEvents(s, a0, b0, out0, r.a, r.b, r.out, w, h)
  {
    var p := ReallocPair(s, a0, b0, out0, w, h, format, wrap);
    ReallocPairFramed(s, a0, b0, out0, w, h, format, wrap);
    var o := Acquire(p.state, out0, w, h, 16, format, wrap, Bilinear);
    AcquireFramed(p.state, out0, w, h, 16, format, wrap, Bilinear);
    ReallocPairSpares(s, a0, b0, out0, w, h, format, wrap, o.id);
    var ea, eb := AcquireEvents(s, a0, p.ids[0], w, h), AcquireEvents(s, b0, p.ids[1], w, h);
    var eo := AcquireEvents(s, out0, o.id, w, h);
    AppendAssoc(s.trace, ea, eb);
    AppendAssoc(s.trace, ea + eb, eo);
    AppendAssoc(s.trace, ea + eb + eo, [TextureCreated(Some(o.id))]);
  }

  /** The commands of `OnRenderImage` after `CheckRTs`, with the pair [a, b]
      and `Output` = out: copy the camera image in, run the effects, copy the
      result to `Output`, then draw `Output` or the camera image. */
  function RenderEvents(src: nat, dst: TexRef, a: nat, b: nat, out: nat, effects: seq<Material>,
                        show: bool): (r: seq<Event>)
    ensures Silent(r)
  {
    EffectEventsSilent(a, b, effects);
    [Event.Blit(Some(src), Some(a), None)] + EffectEvents(a, b, effects)
    + [Event.Blit(Some(Front(a, b, |effects|)), Some(out), None)]
    + [Event.Blit(if show then Some(out) else Some(src), dst, None)]
  }

  /** The engine after the effect loop over `ms`, starting with `rts` =
      [a, b]: pass i draws the front texture through `ms[i]` into the other
      one, and the two are swapped. */
  function EffectPasses(s: EngineState, a: nat, b: nat, ms: seq<Material>): (r: EngineState)
    requires s.Valid() && a in s.store && b in s.store
    ensures r.Valid() && r.store.Keys == s.store.Keys
    decreases |ms|
  {
    if ms == [] then s
    else
      var n := |ms| - 1;
      var p := EffectPasses(s, a, b, ms[..n]);
      p.AfterBlit(Some(Front(a, b, n)), Some(Front(a, b, n + 1)), Some(ms[n]))
  }

  /** The effect loop writes only the pair, makes, destroys and resizes no
      texture, and does not draw to the back buffer. */
  lemma {:induction false} EffectPassesFramed(s: EngineState, a: nat, b: nat, ms: seq<Material>)
    requires s.Valid() && a in s.store && b in s.store
    ensures var r := EffectPasses(s, a, b, ms);
      Repainted(s, r) && Untouched(s, r, {a, b}) && r.screen == s.screen
    decreases |ms|
  {
    if ms != [] {
      var n := |ms| - 1;
      EffectPassesFramed(s, a, b, ms[..n]);
      var p := EffectPasses(s, a, b, ms[..n]);
      var q := p.AfterBlit(Some(Front(a, b, n)), Some(Front(a, b, n + 1)), Some(ms[n]));
      RepaintedTrans(s, p, q);
      UntouchedWithin(s, p, q, {a, b}, {Front(a, b, n + 1)}, {a, b});
    }
  }

  /** One more effect is one more pass after the others. */
  lemma EffectPassesSnoc(s: EngineState, a: nat, b: nat, ms: seq<Material>, i: nat)
    requires s.Valid() && a in s.store && b in s.store && i < |ms|
    ensures var p := EffectPasses(s, a, b, ms[..i]);
      EffectPasses(s, a, b, ms[..i + 1])
      == p.AfterBlit(Some(Front(a, b, i)), Some(Front(a, b, i + 1)), Some(ms[i]))
  {
    assert ms[..i + 1][..i] == ms[..i];
  }

  /** When the pair is two textures of one size, the front texture after the
      loop holds every effect applied in turn to what `a` held, and the loop
      issued `EffectEvents`. */
  lemma {:induction false} EffectPassesLayered(s: EngineState, a: nat, b: nat, ms: seq<Material>)
    requires s.Valid() && a in s.store && b in s.store && a != b
    requires s.store[a].width == s.store[b].width && s.store[a].height == s.store[b].height
    ensures var r := EffectPasses(s, a, b, ms);
      && r.store[Front(a, b, |ms|)].contents == Layered(ms, s.store[a].contents)
      && r.trace == s.trace + EffectEvents(a, b, ms)
    decreases |ms|
  {
    if ms != [] {
      var n := |ms| - 1;
      EffectPassesLayered(s, a, b, ms[..n]);
      EffectPassesFramed(s, a, b, ms[..n]);
      var p := EffectPasses(s, a, b, ms[..n]);
      FrontAlternates(a, b, n);
      var src, dst := Front(a, b, n), Front(a, b, n + 1);
      assert p.SizeOf(Some(src)) == p.SizeOf(Some(dst));
      AppendAssoc(s.trace, EffectEvents(a, b, ms[..n]), [Event.Blit(Some(src), Some(dst), Some(ms[n]))]);
    }
  }

  /** The commands of `OnRenderImage` after `CheckRTs`, with the pair [a, b]
      and `Output` = out. */
  function Rendered(s: EngineState, src: nat, dst: TexRef, a: nat, b: nat, out: nat,
                    effects: seq<Material>, show: bool): (r: EngineState)
    requires s.Valid() && src in s.store && a in s.store && b in s.store && out in s.store && s.Known(dst)
  {
    var s1 := s.AfterBlit(Some(src), Some(a), None);
    var s2 := EffectPasses(s1, a, b, effects);
    var s3 := s2.AfterBlit(Some(Front(a, b, |effects|)), Some(out), None);
    s3.AfterBlit(if show then Some(out) else Some(src), dst, None)
  }

  /** Rendering writes only the pair, `Output` and `dst`, makes, destroys
      and resizes no texture, and leaves `dst` active. */
  lemma RenderedFramed(s: EngineState, src: nat, dst: TexRef, a: nat, b: nat, out: nat,
                       effects: seq<Material>, show: bool)
    requires s.Valid() && src in s.store && a in s.store && b in s.store && out in s.store && s.Known(dst)
    ensures var r := Rendered(s, src, dst, a, b, out, effects, show);
      && r.Valid() && Repainted(s, r) && r.active == dst
      && Untouched(s, r, {a, b, out} + Ids(dst))
  {
    var s1 := s.AfterBlit(Some(src), Some(a), None);
    var s2 := EffectPasses(s1, a, b, effects);
    EffectPassesFramed(s1, a, b, effects);
    var s3 := s2.AfterBlit(Some(Front(a, b, |effects|)), Some(out), None);
    var s4 := s3.AfterBlit(if show then Some(out) else Some(src), dst, None);
    assert Rendered(s, src, dst, a, b, out, effects, show) == s4;
    RepaintedTrans(s, s1, s2);
    RepaintedTrans(s, s2, s3);
    RepaintedTrans(s, s3, s4);
    var owned := {a, b, out} + Ids(dst);
    UntouchedWithin(s, s1, s2, {a}, {a, b}, owned);
    UntouchedWithin(s, s2, s3, owned, {out}, owned);
    UntouchedWithin(s, s3, s4, owned, Ids(dst), owned);
  }

  /** Rendering issues `RenderEvents`. */
  lemma RenderedTrace(s: EngineState, src: nat, dst: TexRef, a: nat, b: nat, out: nat,
                      effects: seq<Material>, show: bool)
    requires s.Valid() && src in s.store && a in s.store && b in s.store && out in s.store && s.Known(dst)
    requires a != b && s.store[a].width == s.store[b].width && s.store[a].height == s.store[b].height
    ensures Rendered(s, src, dst, a, b, out, effects, show).trace
         == s.trace + RenderEvents(src, dst, a, b, out, effects, show)
  {
    var s1 := s.AfterBlit(Some(src), Some(a), None);
    var s2 := EffectPasses(s1, a, b, effects);
    EffectPassesLayered(s1, a, b, effects);
    var s3 := s2.AfterBlit(Some(Front(a, b, |effects|)), Some(out), None);
    var s4 := s3.AfterBlit(if show then Some(out) else Some(src), dst, None);
    assert Rendered(s, src, dst, a, b, out, effects, show) == s4;
    var e0 := [Event.Blit(Some(src), Some(a), None)];
    var e1 := EffectEvents(a, b, effects);
    var x, y := Event.Blit(Some(Front(a, b, |effects|)), Some(out), None),
                Event.Blit(if show then Some(out) else Some(src), dst, None);
    AppendAssoc(s.trace, e0, e1);
    AppendAssoc(s.trace, e0 + e1, [x]);
    AppendAssoc(s.trace, e0 + e1 + [x], [y]);
  }

  /** After the effect chain and the blit into `Output`, `Output` holds the
      chain's picture of the fitted source, and the source and `dst` are as
      they were. */
  lemma ComposedContents(s: EngineState, src: nat, dst: TexRef, a: nat, b: nat, out: nat,
                         effects: seq<Material>, w: int, h: int)
    requires s.Valid() && src in s.store && s.Known(dst)
    requires Prepared(s, Some(a), Some(b), Some(out), w, h) && a != b
    requires src != a && src != b && src != out && Apart(dst, Some(out))
    ensures var s3 := EffectPasses(s.AfterBlit(Some(src), Some(a), None), a, b, effects)
                        .AfterBlit(Some(Front(a, b, |effects|)), Some(out), None);
      && s3.Valid() && s3.Known(dst) && out in s3.store && src in s3.store
      && s3.store[out].contents == Chain(effects, Fit(s.store[src].contents, s.store[src].width, s.store[src].height, w, h))
      && s3.store[out].width == w && s3.store[out].height == h
      && s3.store[src] == s.store[src]
      && s3.SizeOf(dst) == s.SizeOf(dst)
  {
    var p0 := Fit(s.store[src].contents, s.store[src].width, s.store[src].height, w, h);
    var s1 := s.AfterBlit(Some(src), Some(a), None);
    assert s1.store[a].contents == p0;
    var s2 := EffectPasses(s1, a, b, effects);
    EffectPassesLayered(s1, a, b, effects);
    EffectPassesFramed(s1, a, b, effects);
    ChainIsLayered(effects, p0);
    var s3 := s2.AfterBlit(Some(Front(a, b, |effects|)), Some(out), None);
    assert s3.store[out].contents == Chain(effects, p0);
  }

  /**
   * What a frame shows: `Output` holds the camera image, resampled to the
   * pair's size, run through every effect in order; `dst` receives
   * `Output` when `show` is set and the camera image otherwise, each
   * resampled to the size of `dst`.
   */
  lemma RenderedContents(s: EngineState, src: nat, dst: TexRef, a: nat, b: nat, out: nat,
                         effects: seq<Material>, show: bool, w: int, h: int)
    requires s.Valid() && src in s.store && s.Known(dst)
    requires Prepared(s, Some(a), Some(b), Some(out), w, h) && a != b
    requires src != a && src != b && src != out && Apart(dst, Some(out))
    ensures var r := Rendered(s, src, dst, a, b, out, effects, show);
      var shown := Chain(effects, Fit(s.store[src].contents, s.store[src].width, s.store[src].height, w, h));
      && r.store[out].contents == shown
      && r.ContentsOf(dst) == if show then Fit(shown, w, h, s.SizeOf(dst).0, s.SizeOf(dst).1)
                              else Fit(s.store[src].contents, s.store[src].width, s.store[src].height,
                                       s.SizeOf(dst).0, s.SizeOf(dst).1)
  {
    ComposedContents(s, src, dst, a, b, out, effects, w, h);
  }

  /** The handles `CheckRTs` leaves behind for a camera image of size
      `w` x `h`, and the engine after it. */
  function Checked(s: EngineState, a0: TexRef, b0: TexRef, out0: TexRef, w: int, h: int,
                   format: Format, wrap: WrapMode): (r: Reallocation)
    requires Holds(s, a0, b0, out0)
    ensures r.state.Valid() && s.store.Keys <= r.state.store.Keys
    ensures Holds(r.state, Some(r.a), Some(r.b), Some(r.out))
    ensures Prepared(r.state, Some(r.a), Some(r.b), Some(r.out), w, h)
  {
    if Reusable(s, a0, w, h) then Reallocation(s, a0.value, b0.value, out0.value)
    else
      ReallocPrepared(s, a0, b0, out0, w, h, format, wrap);
      Realloc(s, a0, b0, out0, w, h, format, wrap)
  }

  /** `CheckRTs` does not hand out a target that is not one of its own. */
  lemma CheckedApart(s: EngineState, a0: TexRef, b0: TexRef, out0: TexRef, w: int, h: int,
                     format: Format, wrap: WrapMode, t: TexRef)
    requires Holds(s, a0, b0, out0) && s.Known(t)
    requires Apart(t, a0) && Apart(t, b0) && Apart(t, out0)
    ensures var c := Checked(s, a0, b0, out0, w, h, format, wrap);
      Apart(t, Some(c.a)) && Apart(t, Some(c.b)) && Apart(t, Some(c.out))
  {
    if !Reusable(s, a0, w, h) {
      ReallocPrepared(s, a0, b0, out0, w, h, format, wrap);
    }
  }

  /** `CheckRTs` leaves a target that is not one of its own as it was. */
  lemma CheckedKeeps(s: EngineState, a0: TexRef, b0: TexRef, out0: TexRef, w: int, h: int,
                     format: Format, wrap: WrapMode, t: TexRef)
    requires Holds(s, a0, b0, out0) && s.Known(t)
    requires Apart(t, a0) && Apart(t, b0) && Apart(t, out0)
    ensures var c := Checked(s, a0, b0, out0, w, h, format, wrap);
      c.state.Known(t) && c.state.SizeOf(t) == s.SizeOf(t) && c.state.ContentsOf(t) == s.ContentsOf(t)
  {
    if !Reusable(s, a0, w, h) {
      ReallocFramed(s, a0, b0, out0, w, h, format, wrap);
      FramedKeeps(s, Realloc(s, a0, b0, out0, w, h, format, wrap).state, Ids(a0) + Ids(b0) + Ids(out0), t);
    }
  }

  /** `CheckRTs` issues nothing when the pair can be kept, and
      `ReallocEvents` otherwise. */
  lemma CheckedTrace(s: EngineState, a0: TexRef, b0: TexRef, out0: TexRef, w: int, h: int,
                     format: Format, wrap: WrapMode)
    requires Holds(s, a0, b0, out0)
    ensures var c := Checked(s, a0, b0, out0, w, h, format, wrap);
      c.state.trace == s.trace + (if Reusable(s, a0, w, h) then []
                                  else ReallocEvents(s, a0, b0, out0, c.a, c.b, c.out, w, h))
  {
    if Reusable(s, a0, w, h) {
      assert s.trace + [] == s.trace;
    } else {
      ReallocTrace(s, a0, b0, out0, w, h, format, wrap);
    }
  }

  /**
   * What one frame of `OnRenderImage` shows, from state `s`: `Output` ends
   * up holding the camera image, resampled to `w` x `h`, run through every
   * effect in order; `dst` receives that or, with `show` off, the camera
   * image itself, resampled to the size of `dst`.
   */
  lemma FrameShows(s: EngineState, a0: TexRef, b0: TexRef, out0: TexRef, w: int, h: int,
                   format: Format, wrap: WrapMode, src: nat, dst: TexRef, effects: seq<Material>, show: bool)
    requires Holds(s, a0, b0, out0) && src in s.store && s.Known(dst)
    requires Apart(Some(src), a0) && Apart(Some(src), b0) && Apart(Some(src), out0)
    requires Apart(dst, a0) && Apart(dst, b0) && Apart(dst, out0)
    ensures var c := Checked(s, a0, b0, out0, w, h, format, wrap);
      var r := Rendered(c.state, src, dst, c.a, c.b, c.out, effects, show);
      var shown := Chain(effects, Fit(s.store[src].contents, s.store[src].width, s.store[src].height, w, h));
      && r.store[c.out].contents == shown
      && r.ContentsOf(dst) == if show then Fit(shown, w, h, s.SizeOf(dst).0, s.SizeOf(dst).1)
                              else Fit(s.store[src].contents, s.store[src].width, s.store[src].height,
                                       s.SizeOf(dst).0, s.SizeOf(dst).1)
  {
    var c := Checked(s, a0, b0, out0, w, h, format, wrap);
    CheckedKeeps(s, a0, b0, out0, w, h, format, wrap, Some(src));
    CheckedApart(s, a0, b0, out0, w, h, format, wrap, Some(src));
    CheckedKeeps(s, a0, b0, out0, w, h, format, wrap, dst);
    CheckedApart(s, a0, b0, out0, w, h, format, wrap, dst);
    RenderedContents(c.state, src, dst, c.a, c.b, c.out, effects, show, w, h);
  }

  /** With no effects, `Output` holds the camera image resampled to the
      pair's size. */
  lemma FrameShowsNoEffects(s: EngineState, a0: TexRef, b0: TexRef, out0: TexRef, w: int, h: int,
                            format: Format, wrap: WrapMode, src: nat, dst: TexRef, show: bool)
    requires Holds(s, a0, b0, out0) && src in s.store && s.Known(dst)
    requires Apart(Some(src), a0) && Apart(Some(src), b0) && Apart(Some(src), out0)
    requires Apart(dst, a0) && Apart(dst, b0) && Apart(dst, out0)
    ensures var c := Checked(s, a0, b0, out0, w, h, format, wrap);
      Rendered(c.state, src, dst, c.a, c.b, c.out, [], show).store[c.out].contents
      == Fit(s.store[src].contents, s.store[src].width, s.store[src].height, w, h)
  {
    FrameShows(s, a0, b0, out0, w, h, format, wrap, src, dst, [], show);
  }

  /**
   * The only notification one frame of `OnRenderImage` issues is
   * `OnCreateTex(Output)`, exactly when the textures were reallocated.
   */
  lemma FrameNotifies(s: EngineState, a0: TexRef, b0: TexRef, out0: TexRef, w: int, h: int,
                      format: Format, wrap: WrapMode, src: nat, dst: TexRef, effects: seq<Material>, show: bool)
    requires Holds(s, a0, b0, out0) && src in s.store && s.Known(dst)
    ensures var c := Checked(s, a0, b0, out0, w, h, format, wrap);
      var r := Rendered(c.state, src, dst, c.a, c.b, c.out, effects, show);
      && s.trace <= r.trace
      && Notifications(r.trace[|s.trace|..])
         == if Reusable(s, a0, w, h) then [] else [TextureCreated(Some(c.out))]
  {
    var c := Checked(s, a0, b0, out0, w, h, format, wrap);
    CheckedTrace(s, a0, b0, out0, w, h, format, wrap);
    RenderedTrace(c.state, src, dst, c.a, c.b, c.out, effects, show);
    var r := Rendered(c.state, src, dst, c.a, c.b, c.out, effects, show);
    var ev := RenderEvents(src, dst, c.a, c.b, c.out, effects, show);
    SilentHasNoNotifications(ev);
    if Reusable(s, a0, w, h) {
      assert r.trace[|s.trace|..] == ev;
    } else {
      var re := ReallocEvents(s, a0, b0, out0, c.a, c.b, c.out, w, h);
      AppendAssoc(s.trace, re, ev);
      assert r.trace[|s.trace|..] == re + ev;
      NotificationsAppend(re, ev);
    }
  }

  /** `foreach (var rt in ts) ReleaseRenderTexture(rt)` from state `s`. */
  function ReleasedEach(s: EngineState, ts: seq<TexRef>): (r: EngineState)
    requires s.Valid()
    ensures r.Valid() && r.store == s.store
    decreases |ts|
  {
    if ts == [] then s else Released(ReleasedEach(s, ts[..|ts| - 1]), ts[|ts| - 1])
  }

  /** Releasing a list of textures leaves none of them live and touches no
      other texture. */
  lemma {:induction false} ReleasedEachGone(s: EngineState, ts: seq<TexRef>)
    requires s.Valid()
    ensures var r := ReleasedEach(s, ts);
      && Framed(s, r, IdSet(ts)) && forall j :: 0 <= j < |ts| ==> !r.Present(ts[j])
    decreases |ts|
  {
    if ts != [] {
      var n := |ts| - 1;
      var p := ReleasedEach(s, ts[..n]);
      ReleasedEachGone(s, ts[..n]);
      FramedTrans(s, p, Released(p, ts[n]), IdSet(ts[..n]), Ids(ts[n]));
      assert forall j :: 0 <= j < n ==> ts[..n][j] == ts[j];
    }
  }

  class RenderEffect {
    const engine: Engine
    /** `effects`, applied in order. */
    const effects: seq<Material>
    const format: Format
    const wrapMode: WrapMode
    const downSample: int
    /** The ping-pong pair `rts`. */
    const rts: array<TexRef>
    /** `Output`. */
    var output: TexRef
    /** `show`: whether the effect result or the plain camera image is drawn. */
    var show: bool

    predicate Valid()
      reads this, rts, engine
    {
      rts.Length == 2 && Holds(engine.st, rts[0], rts[1], output)
    }

    /** `t` is not one of the compositor's own textures. */
    predicate Foreign(t: TexRef)
      reads this, rts
      requires rts.Length == 2
    {
      Apart(t, rts[0]) && Apart(t, rts[1]) && Apart(t, output)
    }

    /** The size of the pair and of `Output` for a camera image `src`. */
    function Target(s: EngineState, src: nat): (int, int)
      requires src in s.store
    {
      (Shr(s.store[src].width, downSample), Shr(s.store[src].height, downSample))
    }

    constructor (engine: Engine, effects: seq<Material>, format: Format, wrapMode: WrapMode,
                 downSample: int, show: bool)
      requires engine.st.Valid()
      ensures Valid() && this.engine == engine && this.effects == effects
      ensures this.format == format && this.wrapMode == wrapMode && this.downSample == downSample
      ensures this.show == show && rts[..] == [None, None] && output == None
      ensures fresh(rts)
    {
      this.engine := engine;
      this.effects := effects;
      this.format := format;
      this.wrapMode := wrapMode;
      this.downSample := downSample;
      this.show := show;
      rts := new TexRef[2](_ => None);
      output := None;
    }

    /** `Update`: the 6 key toggles `show`. */
    method Update(key6Down: bool)
      modifies this
      ensures show == (old(show) != key6Down)
      ensures output == old(output)
    {
      if key6Down {
        show := !show;
      }
    }

    /** `SwapRTs`. */
    method SwapRTs()
      requires rts.Length == 2
      modifies rts
      ensures rts[0] == old(rts[1]) && rts[1] == old(rts[0])
    {
      var tmp := rts[0];
      rts[0] := rts[1];
      rts[1] := tmp;
    }

    /**
     * `OnRenderImage(src, dst)`: make sure the pair and `Output` match the
     * camera image, then render the frame through them.
     */
    method OnRenderImage(src: nat, dst: TexRef)
      requires Valid() && engine.st.Present(Some(src)) && Foreign(Some(src)) && engine.st.Known(dst)
      modifies this, rts, engine
      ensures Valid() && show == old(show)
      ensures var (w, h) := Target(old(engine.st), src);
        var c := Checked(old(engine.st), old(rts[0]), old(rts[1]), old(output), w, h, format, wrapMode);
        && output == Some(c.out)
        && engine.st == Rendered(c.state, src, dst, c.a, c.b, c.out, effects, show)
        && rts[0] == Some(Front(c.a, c.b, |effects|)) && rts[1] == Some(Front(c.a, c.b, |effects| + 1))
    {
      CheckRTs(src);
      Render(src, dst);
    }

    /** The body of `OnRenderImage` after `CheckRTs`: copy the camera image
        into `rts[0]`, run the effects, copy the result to `Output`, then
        draw `Output` or the camera image into `dst`. */
    method Render(src: nat, dst: TexRef)
      requires rts.Length == 2 && Holds(engine.st, rts[0], rts[1], output) && engine.st.Present(rts[0])
      requires src in engine.st.store && engine.st.Known(dst)
      modifies rts, engine
      ensures Holds(engine.st, rts[0], rts[1], output)
      ensures var a, b := old(rts[0]).value, old(rts[1]).value;
        && engine.st == Rendered(old(engine.st), src, dst, a, b, output.value, effects, show)
        && rts[0] == Some(Front(a, b, |effects|)) && rts[1] == Some(Front(a, b, |effects| + 1))
    {
      ghost var s0, a, b := engine.st, rts[0].value, rts[1].value;
      engine.Blit(Some(src), rts[0], None);
      ghost var s1 := engine.st;
      ApplyEffects();
      ghost var s2 := engine.st;
      engine.Blit(rts[0], output, None);
      ghost var s3 := engine.st;
      var shown := if show then output else Some(src);
      engine.Blit(shown, dst, None);
      assert engine.st == s3.AfterBlit(shown, dst, None);
      assert s3 == s2.AfterBlit(Some(Front(a, b, |effects|)), output, None);
      assert s2 == EffectPasses(s1, a, b, effects);
      RenderedFramed(s0, src, dst, a, b, output.value, effects, show);
      HoldsRepainted(s0, engine.st, Some(a), Some(b), output);
      HoldsFront(engine.st, a, b, output, |effects|);
    }

    /** The `foreach` over `effects` in `OnRenderImage`: draw `rts[0]`
        through each material into `rts[1]`, then swap the two. */
    method ApplyEffects()
      requires rts.Length == 2 && engine.st.Valid() && rts[0].Some? && rts[1].Some?
      requires rts[0].value in engine.st.store && rts[1].value in engine.st.store && rts[0] != rts[1]
      modifies rts, engine
      ensures var (a, b) := (old(rts[0]).value, old(rts[1]).value);
        && engine.st == EffectPasses(old(engine.st), a, b, effects)
        && rts[0] == Some(Front(a, b, |effects|)) && rts[1] == Some(Front(a, b, |effects| + 1))
    {
      ghost var s0, a, b := engine.st, rts[0].value, rts[1].value;
      var i := 0;
      while i < |effects|
        invariant 0 <= i <= |effects|
        invariant rts[0] == Some(Front(a, b, i)) && rts[1] == Some(Front(a, b, i + 1))
        invariant engine.st == EffectPasses(s0, a, b, effects[..i])
      {
        EffectPass(i, s0, a, b);
        i := i + 1;
      }
      assert effects[..i] == effects;
    }

    /** One iteration of the effect loop: `Graphics.Blit(rts[0], rts[1], mat)`
        with `mat` = `effects[i]`, then `SwapRTs()`. */
    method EffectPass(i: nat, ghost s0: EngineState, ghost a: nat, ghost b: nat)
      requires rts.Length == 2 && i < |effects| && s0.Valid() && a in s0.store && b in s0.store && a != b
      requires rts[0] == Some(Front(a, b, i)) && rts[1] == Some(Front(a, b, i + 1))
      requires engine.st == EffectPasses(s0, a, b, effects[..i])
      requires engine.st.Valid() && a in engine.st.store && b in engine.st.store
      modifies rts, engine
      ensures rts[0] == Some(Front(a, b, i + 1)) && rts[1] == Some(Front(a, b, i + 2))
      ensures engine.st == EffectPasses(s0, a, b, effects[..i + 1])
    {
      EffectPassesSnoc(s0, a, b, effects, i);
      FrontAlternates(a, b, i);
      engine.Blit(rts[0], rts[1], Some(effects[i]));
      ghost var st := engine.st;
      SwapRTs();
      assert engine.st == st;
    }

    /** `OnDisable`: release both textures of the pair, then `Output`. The
        handles stay as they are, so the next frame re-acquires all three. */
    method OnDisable()
      requires Valid()
      modifies engine
      ensures Valid() && !engine.st.Present(rts[0]) && !engine.st.Present(rts[1]) && !engine.st.Present(output)
      ensures engine.st == ReleasedEach(old(engine.st), [rts[0], rts[1], output])
    {
      ghost var s0 := engine.st;
      var i := 0;
      while i < rts.Length
        invariant 0 <= i <= 2 && engine.st == ReleasedEach(s0, rts[..i])
      {
        assert rts[..i + 1][..i] == rts[..i];
        RenderUtility.ReleaseRenderTexture(engine, rts[i]);
        i := i + 1;
      }
      RenderUtility.ReleaseRenderTexture(engine, output);
      assert [rts[0], rts[1], output][..2] == rts[..2];
      ReleasedEachGone(s0, [rts[0], rts[1], output]);
      assert [rts[0], rts[1], output][2] == output;
    }

    /**
     * `CheckRTs`: when `rts[0]` is null or not `src.width >> downSample` x
     * `src.height >> downSample`, re-acquire both textures of the pair and
     * `Output` at that size and announce the new `Output`; otherwise change
     * nothing.
     */
    method CheckRTs(src: nat)
      requires Valid() && engine.st.Present(Some(src)) && Foreign(Some(src))
      modifies this, rts, engine
      ensures Valid() && Foreign(Some(src)) && show == old(show)
      ensures var (w, h) := Target(old(engine.st), src);
        var c := Checked(old(engine.st), old(rts[0]), old(rts[1]), old(output), w, h, format, wrapMode);
        engine.st == c.state && rts[0] == Some(c.a) && rts[1] == Some(c.b) && output == Some(c.out)
    {
      var w, h := Shr(engine.st.store[src].width, downSample), Shr(engine.st.store[src].height, downSample);
      if !Reusable(engine.st, rts[0], w, h) {
        ReallocPrepared(engine.st, rts[0], rts[1], output, w, h, format, wrapMode);
        Reallocate(w, h);
      }
    }

    /** The reallocating branch of `CheckRTs`. */
    method Reallocate(w: int, h: int)
      requires Valid()
      modifies this, rts, engine
      ensures show == old(show)
      ensures var r := Realloc(old(engine.st), old(rts[0]), old(rts[1]), old(output), w, h, format, wrapMode);
        engine.st == r.state && rts[0] == Some(r.a) && rts[1] == Some(r.b) && output == Some(r.out)
    {
      ghost var s0, a0, b0 := engine.st, rts[0], rts[1];
      ReacquirePair(w, h);
      AcquireEachPair(s0, a0, b0, output, w, h, format, wrapMode);
      ReplaceOutput(w, h);
    }

    /** The rest of the reallocating branch: `Output` re-acquired, then
        `OnCreateTex.Invoke(Output)`. */
    method ReplaceOutput(w: int, h: int)
      requires engine.st.Valid() && engine.st.Known(output)
      modifies this, engine
      ensures show == old(show)
      ensures var o := Acquire(old(engine.st), old(output), w, h, 16, format, wrapMode, Bilinear);
        engine.st == o.state.(trace := o.state.trace + [TextureCreated(Some(o.id))]) && output == Some(o.id)
    {
      var out := RenderUtility.CreateRenderTexture(engine, w, h, 16, format, wrapMode, Bilinear, output);
      output := Some(out);
      engine.Invoke(TextureCreated(output));
    }

    /** The `for` loop of `CheckRTs`: `rts[i] = CreateRenderTexture(..., rts[i])`
        for each texture of the pair in turn. */
    method ReacquirePair(w: int, h: int)
      requires Valid()
      modifies rts, engine
      ensures rts[0].Some? && rts[1].Some?
      ensures AcquireEach(old(engine.st), old(rts[..]), w, h, 16, format, wrapMode, Bilinear)
           == Acquisitions(engine.st, [rts[0].value, rts[1].value])
    {
      ghost var s0, olds := engine.st, rts[..];
      ghost var ids: seq<nat> := [];
      var i := 0;
      while i < rts.Length
        invariant 0 <= i <= 2 && |ids| == i
        invariant i == 0 ==> rts[0] == olds[0]
        invariant i >= 1 ==> rts[0] == Some(ids[0])
        invariant i <= 1 ==> rts[1] == olds[1]
        invariant i == 2 ==> rts[1] == Some(ids[1])
        invariant AcquireEach(s0, olds[..i], w, h, 16, format, wrapMode, Bilinear) == Acquisitions(engine.st, ids)
      {
        assert olds[..i + 1] == olds[..i] + [olds[i]];
        AcquireEachSnoc(s0, olds[..i], olds[i], w, h, format, wrapMode);
        ReacquireAt(i, w, h);
        ids := ids + [rts[i].value];
        i := i + 1;
      }
      assert olds[..2] == olds && ids == [rts[0].value, rts[1].value];
    }

    /** One iteration of the `CheckRTs` loop. */
    method ReacquireAt(i: nat, w: int, h: int)
      requires rts.Length == 2 && i < 2 && engine.st.Valid() && engine.st.Known(rts[i])
      modifies rts, engine
      ensures rts[1 - i] == old(rts[1 - i]) && rts[i].Some?
      ensures Acquisition(engine.st, rts[i].value)
           == Acquire(old(engine.st), old(rts[i]), w, h, 16, format, wrapMode, Bilinear)
    {
      var rt := rts[i];
      var r := RenderUtility.CreateRenderTexture(engine, w, h, 16, format, wrapMode, Bilinear, rt);
      rts[i] := Some(r);
    }
  }
}
