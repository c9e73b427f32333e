/** The particle pool of the face-reactive visualisation: the per-emotion parameters,
    the activation pass run when the emotion changes, and the per-frame movement that
    skips inactive particles. `Math.random` draws and the canvas size are parameters. */
module Visualization {
  import EmotionMapping

  /** The pool size. */
  const MaxParticles: nat := 150

  datatype Particle = Particle(x: real, y: real, vx: real, vy: real, size: real, color: string, active: bool)

  /** The look of an emotion. */
  datatype EmotionParams = EmotionParams(color: string, velocityMultiplier: real, sizeMultiplier: real, particleCount: nat)

  const Table: map<string, EmotionParams> := map[
    "happy" := EmotionParams("#FFD700", 2.0, 1.2, 100),
    "sad" := EmotionParams("#4A4A8A", 0.3, 0.8, 50),
    "excited" := EmotionParams("#FF6B35", 3.5, 1.5, 150),
    "calm" := EmotionParams("#6B9BD1", 0.8, 1.0, 80),
    "surprised" := EmotionParams("#FFEB3B", 4.0, 1.0, 120),
    "angry" := EmotionParams("#D32F2F", 2.5, 1.8, 100)]

  /** `emotionParams[emotion] || emotionParams.calm`. */
  function ParamsFor(emotion: string): (p: EmotionParams)
    ensures p.particleCount <= MaxParticles
    ensures emotion !in Table ==> p == Table["calm"] && p.particleCount == 80
    ensures emotion in Table ==> p == Table[emotion]
  {
    assert forall e :: e in Table ==> Table[e].particleCount <= MaxParticles;
    if emotion in Table then Table[emotion] else Table["calm"]
  }

  /** Every emotion the classifier reports has its own entry, so none falls back. */
  lemma EveryDetectedEmotionHasParams(e: EmotionMapping.Emotion)
    ensures EmotionMapping.Label(e) in Table
  {
  }

  /** Four `Math.random()` draws, each in [0, 1): two for the velocity, two for the
      position. */
  datatype Draw = Draw(rvx: real, rvy: real, rx: real, ry: real)

  /** A particle switched on for `params`. */
  function Activated(p: Particle, params: EmotionParams, d: Draw, width: real, height: real): Particle {
    Particle(d.rx * width, d.ry * height,
             (d.rvx - 0.5) * params.velocityMultiplier, (d.rvy - 0.5) * params.velocityMultiplier,
             5.0 * params.sizeMultiplier, params.color, true)
  }

  /** The number of active particles. */
  function ActiveCount(pool: seq<Particle>): (n: nat)
    ensures n <= |pool|
  {
    if pool == [] then 0 else ActiveCount(pool[..|pool| - 1]) + (if pool[|pool| - 1].active then 1 else 0)
  }

  /** A pool whose active particles are exactly its first `k`. */
  lemma {:induction false} PrefixActiveCount(pool: seq<Particle>, k: nat)
    requires k <= |pool|
    requires forall i :: 0 <= i < |pool| ==> (pool[i].active <==> i < k)
    ensures ActiveCount(pool) == k
  {
    if |pool| > 0 {
      if k == |pool| {
        PrefixActiveCount(pool[..|pool| - 1], k - 1);
      } else {
        PrefixActiveCount(pool[..|pool| - 1], k);
      }
    }
  }

  /** `updateVisualization(emotion)` on a pool of at least `MaxParticles` particles, with
      `draws(i)` the random draws for particle `i` and the canvas `width` by `height`.
      Only the first `MaxParticles` particles are visited; each is switched on exactly
      when its index is below the emotion's count. Nothing is allocated. */
  method UpdateVisualization(pool: seq<Particle>, emotion: string, draws: nat -> Draw, width: real, height: real)
    returns (pool': seq<Particle>)
    requires |pool| >= MaxParticles
    ensures |pool'| == |pool|
    ensures forall i :: 0 <= i < MaxParticles ==> (pool'[i].active <==> i < ParamsFor(emotion).particleCount)
    ensures forall i :: 0 <= i < MaxParticles && i < ParamsFor(emotion).particleCount ==>
              pool'[i] == Activated(pool[i], ParamsFor(emotion), draws(i), width, height)
    ensures forall i :: 0 <= i < MaxParticles && i >= ParamsFor(emotion).particleCount ==>
              pool'[i] == pool[i].(active := false)
    ensures forall i :: MaxParticles <= i < |pool| ==> pool'[i] == pool[i]
  {
    var params := ParamsFor(emotion);
    pool' := pool;
    var i := 0;
    while i < MaxParticles
      invariant 0 <= i <= MaxParticles
      invariant |pool'| == |pool|
      invariant forall j :: 0 <= j < i && j < params.particleCount ==>
                  pool'[j] == Activated(pool[j], params, draws(j), width, height)
      invariant forall j :: 0 <= j < i && j >= params.particleCount ==> pool'[j] == pool[j].(active := false)
      invariant forall j :: i <= j < |pool| ==> pool'[j] == pool[j]
    {
      var p := pool'[i].(active := i < params.particleCount);
      if p.active {
        p := Activated(p, params, draws(i), width, height);
      }
      pool' := pool'[i := p];
      i := i + 1;
    }
  }

  /** After the pass, exactly the emotion's count of the visited particles is active,
      and they are the first ones. */
  lemma ActivePrefix(pool': seq<Particle>, emotion: string)
    requires |pool'| >= MaxParticles
    requires forall i :: 0 <= i < MaxParticles ==> (pool'[i].active <==> i < ParamsFor(emotion).particleCount)
    ensures ActiveCount(pool'[..MaxParticles]) == ParamsFor(emotion).particleCount
  {
    PrefixActiveCount(pool'[..MaxParticles], ParamsFor(emotion).particleCount);
  }

  /** One frame of movement for one particle: step by the velocity, then wrap an edge
      crossing to the opposite edge. */
  function Move(p: Particle, width: real, height: real): (q: Particle)
    requires width >= 0.0 && height >= 0.0
    ensures !p.active ==> q == p
    ensures p.active ==> q.vx == p.vx && q.vy == p.vy && q.size == p.size && q.color == p.color && q.active
    ensures p.active ==> 0.0 <= q.x <= width && 0.0 <= q.y <= height
    ensures p.active && 0.0 <= p.x + p.vx <= width ==> q.x == p.x + p.vx
    ensures p.active && 0.0 <= p.y + p.vy <= height ==> q.y == p.y + p.vy
  {
    if !p.active then p
    else
      var x := p.x + p.vx;
      var y := p.y + p.vy;
      var x := if x < 0.0 then width else x;
      var x := if x > width then 0.0 else x;
      var y := if y < 0.0 then height else y;
      var y := if y > height then 0.0 else y;
      p.(x := x, y := y)
  }

  /** `updateParticles`: every particle moves by `Move`, so inactive ones stay put. */
  function UpdateParticles(pool: seq<Particle>, width: real, height: real): (pool': seq<Particle>)
    requires width >= 0.0 && height >= 0.0
    ensures |pool'| == |pool|
    ensures forall i :: 0 <= i < |pool| && !pool[i].active ==> pool'[i] == pool[i]
    ensures forall i :: 0 <= i < |pool| && pool[i].active ==> pool'[i] == Move(pool[i], width, height)
    ensures forall i :: 0 <= i < |pool| ==> pool'[i].active == pool[i].active
    ensures ActiveCount(pool') == ActiveCount(pool)
  {
    if pool == [] then []
    else
      var init := pool[..|pool| - 1];
      var r := UpdateParticles(init, width, height) + [Move(pool[|pool| - 1], width, height)];
      assert r[..|r| - 1] == UpdateParticles(init, width, height);
      r
  }
}
