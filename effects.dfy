/** What the gameplay code asks of the world and of the sound system. The world,
    the actors it creates and the audio library are outside the model; a request
    is recorded as an `Effect`, in the order it is made. */
module Effects {
  import opened EventMessages

  /** Background music tracks. */
  datatype Bgm = BgmTitle | BgmStage | BgmBoss

  /** Sound effects. */
  datatype SoundEffect = SeStart

  /** The enemy actors the gameplay manager creates. */
  datatype EnemyKind = Ghoul | DragonBoar

  datatype Effect =
    | SendMessage(message: EventMessage)                              // world_->send_message
    | AddEnemy(kind: EnemyKind, x: real, y: real, z: real, yaw: real)  // world_->add_actor(ActorGroup::Enemy, ...)
    | PlayBgm(bgm: Bgm)                                               // Sound::play_bgm
    | StopBgm                                                         // Sound::stop_bgm
    | PlaySe(se: SoundEffect)                                         // Sound::play_se

  /** The number of enemies of the given kind that `out` adds to the world. */
  function Spawned(out: seq<Effect>, kind: EnemyKind): nat
  {
    if out == [] then 0
    else (if out[0].AddEnemy? && out[0].kind == kind then 1 else 0) + Spawned(out[1..], kind)
  }

  lemma {:induction false} SpawnedAppend(a: seq<Effect>, b: seq<Effect>, kind: EnemyKind)
    ensures Spawned(a + b, kind) == Spawned(a, kind) + Spawned(b, kind)
  {
    if a != [] {
      assert (a + b)[1..] == a[1..] + b;
      SpawnedAppend(a[1..], b, kind);
    } else {
      assert a + b == b;
    }
  }

  /** The messages `out` sends through the world, in order. */
  function Messages(out: seq<Effect>): seq<EventMessage>
  {
    if out == [] then []
    else (if out[0].SendMessage? then [out[0].message] else []) + Messages(out[1..])
  }

  lemma {:induction false} MessagesAppend(a: seq<Effect>, b: seq<Effect>)
    ensures Messages(a + b) == Messages(a) + Messages(b)
  {
    if a != [] {
      assert (a + b)[1..] == a[1..] + b;
      MessagesAppend(a[1..], b);
    } else {
      assert a + b == b;
    }
  }

  /** Counting and listing distribute over the requests of two calls made one
      after the other. */
  lemma Concat(a: seq<Effect>, b: seq<Effect>)
    ensures Messages(a + b) == Messages(a) + Messages(b)
    ensures Spawned(a + b, Ghoul) == Spawned(a, Ghoul) + Spawned(b, Ghoul)
    ensures Spawned(a + b, DragonBoar) == Spawned(a, DragonBoar) + Spawned(b, DragonBoar)
  {
    MessagesAppend(a, b);
    SpawnedAppend(a, b, Ghoul);
    SpawnedAppend(a, b, DragonBoar);
  }

  /** A single request. */
  lemma Single(e: Effect)
    ensures Messages([e]) == if e.SendMessage? then [e.message] else []
    ensures Spawned([e], Ghoul) == if e.AddEnemy? && e.kind == Ghoul then 1 else 0
    ensures Spawned([e], DragonBoar) == if e.AddEnemy? && e.kind == DragonBoar then 1 else 0
  {
    assert [e][1..] == [];
  }
}
