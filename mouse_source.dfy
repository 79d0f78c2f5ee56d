/**
 * The pointer-driven heat source (`MouseSourceProvider`, present in both the
 * `Reference` and the `Course` namespace with the same logic): every frame it
 * makes sure its source texture exists for the current screen size, then
 * either draws the impulse at the pointer into it and announces the texture,
 * or announces that there is no source this frame.
 */
module MouseSource {
  import opened CSharp
  import opened Gpu
  import opened RenderUtility
  import Diffusion

  /** The engine after `ReleaseForceField`, i.e. `Destroy(addSourceTex)`: the
      texture is gone and nothing else changed. */
  function Dropped(s: EngineState, t: TexRef): (r: EngineState)
    requires s.Valid()
    ensures !r.Present(t) && Framed(s, r, Ids(t)) && r.store == s.store && r.next == s.next
    ensures r.trace == s.trace + (if s.Present(t) then [Event.Destroy(t.value)] else [])
  {
    if s.Present(t) then s.(live := s.live - {t.value}, trace := s.trace + [Event.Destroy(t.value)]) else s
  }

  /** `new RenderTexture(width >> lod, height >> lod, 0, RHalf)`. */
  function SourceTexture(width: int, height: int, lod: int): Texture
  {
    NewTexture(Shr(width, lod), Shr(height, lod), 0, RHalf)
  }

  /** The reallocating branch of `InitializeSourceTex`: destroy the old
      texture and allocate a new one of the shifted size. */
  function Fresh(s: EngineState, tex: TexRef, width: int, height: int, lod: int): (r: Acquisition)
    requires s.Valid()
    ensures r.state.Valid() && r.state.Present(Some(r.id))
  {
    var d := Dropped(s, tex);
    Acquisition(d.(store := d.store[d.next := SourceTexture(width, height, lod)],
                   live := d.live + {d.next}, next := d.next + 1, trace := d.trace + [Alloc(d.next)]),
                d.next)
  }

  /**
   * The engine and the texture after `InitializeSourceTex(width, height)`
   * with the solver's `lod`: the texture is kept when it exists and is
   * exactly `width` x `height` (the unshifted size), and replaced
   * otherwise.
   */
  function Sized(s: EngineState, tex: TexRef, width: int, height: int, lod: int): (r: Acquisition)
    requires s.Valid() && s.Known(tex)
    ensures r.state.Valid() && r.state.Present(Some(r.id))
  {
    if Reusable(s, tex, width, height) then Acquisition(s, tex.value) else Fresh(s, tex, width, height, lod)
  }

  /** The commands of `InitializeSourceTex` when it allocates `id`: none if
      the texture is kept, else destroy the old one and allocate. */
  function SizeEvents(s: EngineState, tex: TexRef, width: int, height: int, id: nat): (r: seq<Event>)
    ensures Silent(r)
  {
    if Reusable(s, tex, width, height) then []
    else (if s.Present(tex) then [Event.Destroy(tex.value)] else []) + [Alloc(id)]
  }

  /**
   * `InitializeSourceTex` keeps a texture of the screen size, and otherwise
   * destroys the old one and allocates a new texture that did not exist,
   * of the screen size shifted right by `lod`, not cleared; no other
   * texture, the active target and the back buffer are affected.
   */
  lemma SizedSound(s: EngineState, tex: TexRef, width: int, height: int, lod: int)
    requires s.Valid() && s.Known(tex)
    ensures var r := Sized(s, tex, width, height, lod);
      && Framed(s, r.state, Ids(tex))
      && (Reusable(s, tex, width, height) ==> r == Acquisition(s, tex.value))
      && (!Reusable(s, tex, width, height) ==>
            && r.id !in s.store && !r.state.Present(tex)
            && r.state.store[r.id] == SourceTexture(width, height, lod))
      && r.state.trace == s.trace + SizeEvents(s, tex, width, height, r.id)
  {
  }

  /**
   * Once `InitializeSourceTex` has had to allocate, the texture it made
   * passes its own size test, and so is kept on the next frame at the same
   * screen size, exactly when the shift leaves the size unchanged: when
   * `lod` is 0 (mod 32) or the screen is 0 x 0.
   */
  lemma SizedSettlesIff(s: EngineState, tex: TexRef, width: int, height: int, lod: int)
    requires s.Valid() && s.Known(tex) && !Reusable(s, tex, width, height) && width >= 0 && height >= 0
    ensures var r := Sized(s, tex, width, height, lod);
      Reusable(r.state, Some(r.id), width, height) <==> (lod % 32 == 0 || (width == 0 && height == 0))
  {
    SizedSound(s, tex, width, height, lod);
    ShrFixedIff(width, lod);
    ShrFixedIff(height, lod);
  }

  /** `InitializeSourceTex` as evidently intended: the size test compares
      against the shifted size the texture is allocated with. */
  function SizedAsIntended(s: EngineState, tex: TexRef, width: int, height: int, lod: int): (r: Acquisition)
    requires s.Valid() && s.Known(tex)
    ensures r.state.Valid() && r.state.Present(Some(r.id))
  {
    if Reusable(s, tex, Shr(width, lod), Shr(height, lod)) then Acquisition(s, tex.value)
    else Fresh(s, tex, width, height, lod)
  }

  /** With the intended test, the texture of one frame is always kept on
      the next frame at the same screen size. */
  lemma SizedAsIntendedSettles(s: EngineState, tex: TexRef, width: int, height: int, lod: int)
    requires s.Valid() && s.Known(tex)
    ensures var r := SizedAsIntended(s, tex, width, height, lod);
      && Reusable(r.state, Some(r.id), Shr(width, lod), Shr(height, lod))
      && SizedAsIntended(r.state, Some(r.id), width, height, lod) == r
  {
  }

  /** The commands and notification of `UpdateSource`: with the button held,
      the impulse at `pos` drawn into `tex`, then `OnSourceUpdated(tex)`;
      otherwise `OnSourceUpdated(null)` alone. */
  function SourceEvents(tex: TexRef, held: bool, pos: Vec3): (r: seq<Event>)
    ensures Notifications(r) == [SourceUpdated(if held then tex else None)]
  {
    var n := SourceUpdated(if held then tex else None);
    assert Notifications([n]) == [n] by {
      assert [n][..0] == [];
    }
    if held then
      var b := Event.Blit(None, tex, Some(AddSourceMat(pos)));
      assert Notifications([b, n]) == [n] by {
        assert [b, n][..1] == [b] && [b][..0] == [];
      }
      [b, n]
    else [n]
  }

  /** The engine after `UpdateSource` with the button `held` and the pointer
      at `pos`. */
  function Sourced(s: EngineState, tex: TexRef, held: bool, pos: Vec3): (r: EngineState)
    requires s.Valid() && s.Known(tex)
  {
    if held then
      var b := s.AfterBlit(None, tex, Some(AddSourceMat(pos)));
      b.(trace := b.trace + [SourceUpdated(tex)])
    else s.(trace := s.trace + [SourceUpdated(None)])
  }

  /**
   * `UpdateSource` writes the impulse into the source texture only when the
   * button is held, before announcing it, and touches no other texture and
   * no texture's size.
   */
  lemma SourcedSound(s: EngineState, tex: nat, held: bool, pos: Vec3)
    requires s.Valid() && tex in s.store
    ensures var r := Sourced(s, Some(tex), held, pos);
      && r.Valid() && Repainted(s, r) && Untouched(s, r, {tex}) && r.screen == s.screen
      && r.store[tex].contents == (if held then Shaded(AddSourceMat(pos), Blank) else s.store[tex].contents)
      && r.trace == s.trace + SourceEvents(Some(tex), held, pos)
  {
  }

  /** One `Update` from state `s` with solver level of detail `lod`. */
  function Updated(s: EngineState, tex: TexRef, lod: int, held: bool, pos: Vec3): (r: Acquisition)
    requires s.Valid() && s.Known(tex)
  {
    var a := Sized(s, tex, s.screenWidth, s.screenHeight, lod);
    Acquisition(Sourced(a.state, Some(a.id), held, pos), a.id)
  }

  /**
   * Every `Update` issues exactly one notification, and it carries the
   * source texture when the button is held and null otherwise.
   */
  lemma UpdateNotifiesOnce(s: EngineState, tex: TexRef, lod: int, held: bool, pos: Vec3)
    requires s.Valid() && s.Known(tex)
    ensures var u := Updated(s, tex, lod, held, pos);
      && s.trace <= u.state.trace
      && Notifications(u.state.trace[|s.trace|..]) == [SourceUpdated(if held then Some(u.id) else None)]
  {
    var u := Updated(s, tex, lod, held, pos);
    var init, ev := SizeEvents(s, tex, s.screenWidth, s.screenHeight, u.id), SourceEvents(Some(u.id), held, pos);
    UpdateTrace(s, tex, lod, held, pos);
    SilentHasNoNotifications(init);
    NotificationsAppend(init, ev);
    Suffix(s.trace, init + ev);
  }

  /** An `Update` issues `InitializeSourceTex`'s commands, then
      `UpdateSource`'s. */
  lemma UpdateTrace(s: EngineState, tex: TexRef, lod: int, held: bool, pos: Vec3)
    requires s.Valid() && s.Known(tex)
    ensures var u := Updated(s, tex, lod, held, pos);
      u.state.trace == s.trace + (SizeEvents(s, tex, s.screenWidth, s.screenHeight, u.id)
                                  + SourceEvents(Some(u.id), held, pos))
  {
    var a := Sized(s, tex, s.screenWidth, s.screenHeight, lod);
    SizedSound(s, tex, s.screenWidth, s.screenHeight, lod);
    SourcedSound(a.state, a.id, held, pos);
    AppendAssoc(s.trace, SizeEvents(s, tex, s.screenWidth, s.screenHeight, a.id), SourceEvents(Some(a.id), held, pos));
  }

  /** What follows a prefix. */
  lemma Suffix(a: seq<Event>, b: seq<Event>)
    ensures (a + b)[|a|..] == b
  {
  }

  /**
   * With a non-zero effective `lod` and a non-empty screen, an `Update` that
   * had to allocate leaves a texture the next `Update` at the same screen
   * size allocates again: the source texture is replaced on every frame.
   */
  lemma UpdateReallocatesAgain(s: EngineState, tex: TexRef, lod: int, held: bool, pos: Vec3)
    requires s.Valid() && s.Known(tex) && s.screenWidth >= 0 && s.screenHeight >= 0
    requires !Reusable(s, tex, s.screenWidth, s.screenHeight)
    requires lod % 32 != 0 && (s.screenWidth != 0 || s.screenHeight != 0)
    ensures var u := Updated(s, tex, lod, held, pos);
      && u.state.screenWidth == s.screenWidth && u.state.screenHeight == s.screenHeight
      && !Reusable(u.state, Some(u.id), u.state.screenWidth, u.state.screenHeight)
  {
    var a := Sized(s, tex, s.screenWidth, s.screenHeight, lod);
    SizedSound(s, tex, s.screenWidth, s.screenHeight, lod);
    SizedSettlesIff(s, tex, s.screenWidth, s.screenHeight, lod);
    SourcedSound(a.state, a.id, held, pos);
  }

  /** The pointer displacement `p - q`. */
  function Displacement(p: Vec3, q: Vec3): (r: Vec3)
    ensures Vec3(q.x + r.x, q.y + r.y, q.z + r.z) == p
  {
    Vec3(p.x - q.x, p.y - q.y, p.z - q.z)
  }

  class MouseSourceProvider {
    const engine: Engine
    /** `SV`, read for its level of detail. */
    const solver: Diffusion.Solver
    var addSourceTex: TexRef
    /** The level of detail the current texture was allocated with. */
    var lod: int
    var lastMousePos: Vec3

    predicate Valid()
      reads this, engine
    {
      engine.st.Valid() && engine.st.Known(addSourceTex)
    }

    constructor (engine: Engine, solver: Diffusion.Solver)
      requires engine.st.Valid()
      ensures Valid() && this.engine == engine && this.solver == solver
      ensures addSourceTex == None && lod == 0 && lastMousePos == Vec3(0, 0, 0)
    {
      this.engine := engine;
      this.solver := solver;
      addSourceTex := None;
      lod := 0;
      lastMousePos := Vec3(0, 0, 0);
    }

    /** `Update`: size the texture for the current screen, then draw or
        clear this frame's source. */
    method Update(held: bool, pos: Vec3)
      requires Valid()
      modifies this, engine
      ensures Valid() && addSourceTex.Some? && lastMousePos == old(lastMousePos)
      ensures Acquisition(engine.st, addSourceTex.value)
           == Updated(old(engine.st), old(addSourceTex), solver.lod, held, pos)
      ensures lod == if Reusable(old(engine.st), old(addSourceTex), old(engine.st.screenWidth),
                                 old(engine.st.screenHeight)) then old(lod) else solver.lod
    {
      InitializeSourceTex(engine.st.screenWidth, engine.st.screenHeight);
      UpdateSource(held, pos);
    }

    /** `OnDestroy`. */
    method OnDestroy()
      requires Valid()
      modifies engine
      ensures Valid() && !engine.st.Present(addSourceTex)
      ensures engine.st == Dropped(old(engine.st), addSourceTex)
    {
      ReleaseForceField();
    }

    /** `InitializeSourceTex(width, height)`. */
    method InitializeSourceTex(width: int, height: int)
      requires Valid()
      modifies this, engine
      ensures Valid() && addSourceTex.Some? && lastMousePos == old(lastMousePos)
      ensures Acquisition(engine.st, addSourceTex.value)
           == Sized(old(engine.st), old(addSourceTex), width, height, solver.lod)
      ensures lod == if Reusable(old(engine.st), old(addSourceTex), width, height) then old(lod) else solver.lod
    {
      if !engine.st.Present(addSourceTex) || engine.st.SizeOf(addSourceTex) != (width, height) {
        ReleaseForceField();
        lod := solver.lod;
        var id := engine.Allocate(Shr(width, lod), Shr(height, lod), 0, RHalf);
        addSourceTex := Some(id);
      }
    }

    /** `UpdateSource`: with mouse button 0 held, configure the impulse
        material at the pointer, draw it into the texture and announce the
        texture; otherwise announce null. */
    method UpdateSource(held: bool, pos: Vec3)
      requires Valid()
      modifies engine
      ensures Valid()
      ensures engine.st == Sourced(old(engine.st), addSourceTex, held, pos)
    {
      if held {
        var mat := AddSourceMat(pos);
        engine.Blit(None, addSourceTex, Some(mat));
        NotifySourceTexUpdate();
      } else {
        NotifyNoSourceTexUpdate();
      }
    }

    /** `NotifySourceTexUpdate`: `OnSourceUpdated.Invoke(addSourceTex)`. */
    method NotifySourceTexUpdate()
      requires Valid()
      modifies engine
      ensures Valid() && engine.st == old(engine.st).(trace := old(engine.st.trace) + [SourceUpdated(addSourceTex)])
    {
      engine.Invoke(SourceUpdated(addSourceTex));
    }

    /** `NotifyNoSourceTexUpdate`: `OnSourceUpdated.Invoke(null)`. */
    method NotifyNoSourceTexUpdate()
      requires Valid()
      modifies engine
      ensures Valid() && engine.st == old(engine.st).(trace := old(engine.st.trace) + [SourceUpdated(None)])
    {
      engine.Invoke(SourceUpdated(None));
    }

    /** `UpdateMousePos(mousePos)` (only in the `Reference` copy): the
        displacement since the last call, remembering the new position. */
    method UpdateMousePos(mousePos: Vec3) returns (dpdt: Vec3)
      modifies this
      ensures dpdt == Displacement(mousePos, old(lastMousePos)) && lastMousePos == mousePos
      ensures addSourceTex == old(addSourceTex) && lod == old(lod)
    {
      dpdt := Vec3(mousePos.x - lastMousePos.x, mousePos.y - lastMousePos.y, mousePos.z - lastMousePos.z);
      lastMousePos := mousePos;
    }

    /** `ReleaseForceField`: `Destroy(addSourceTex)`. */
    method ReleaseForceField()
      requires Valid()
      modifies engine
      ensures Valid() && engine.st == Dropped(old(engine.st), addSourceTex)
    {
      engine.Destroy(addSourceTex);
    }
  }
}
