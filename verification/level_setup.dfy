/** Level setup: a seeded mulberry32 generator, a Fisher–Yates shuffle
    driven by it, and the choice of the question holder, the key hider and
    three questions for a level. */
module LevelSetup {
  import opened Wrappers
  import opened Seqs
  import opened QuestionBank
  import opened RoomCatalog

  /** The constant mulberry32 adds to its state before every draw. */
  const Increment: bv32 := 0x6D2B79F5

  /** The 32-bit pattern of `x | 0` for an integer `x`. */
  function Int32Bits(x: int): bv32 {
    (x % 0x1_0000_0000) as bv32
  }

  /** The mulberry32 mixing of an already advanced state: two rounds of
      xor-shift and 32-bit multiplication, then a final xor-shift. */
  function Temper(s: bv32): bv32 {
    var t := (s ^ (s >> 15)) * (1 | s);
    var t' := (t + (t ^ (t >> 7)) * (61 | t)) ^ t;
    t' ^ (t' >> 14)
  }

  /** The draw's unsigned 32-bit value (`>>> 0`) for an advanced state. */
  function Output(s: bv32): (u: nat)
    ensures u < 0x1_0000_0000
  {
    Temper(s) as int
  }

  /** A draw: the unsigned 32-bit value divided by 2^32. */
  function Draw(u: nat): (d: real)
    requires u < 0x1_0000_0000
    ensures 0.0 <= d < 1.0
  {
    u as real / 4294967296.0
  }

  /** The state after `k` draws from state `s`. */
  function Advance(s: bv32, k: nat): bv32
    decreases k
  {
    if k == 0 then s else Advance(s + Increment, k - 1)
  }

  lemma ProductBelow(u: nat, m: nat)
    requires u < 0x1_0000_0000 && m > 0
    ensures u * m / 0x1_0000_0000 < m
  {
    assert u * m <= 0xFFFF_FFFF * m;
  }

  /** The exchange index `(u * (i + 1)) div 2^32`, always one of 0..i. */
  function SwapPartner(u: nat, i: nat): (j: nat)
    requires u < 0x1_0000_0000
    ensures j <= i
  {
    ProductBelow(u, i + 1);
    (u * (i + 1)) / 0x1_0000_0000
  }

  /** Converting a product to a real multiplies the converted factors. */
  lemma {:induction false} RealOfProduct(a: int, b: nat)
    ensures (a * b) as real == a as real * b as real
  {
    if b > 0 {
      RealOfProduct(a, b - 1);
      assert a * b == a * (b - 1) + a;
    }
  }

  lemma DivMul(a: real, m: real)
    ensures (a / 4294967296.0) * m == (a * m) / 4294967296.0
  {
  }

  /** Real division by 2^32 rounded down is integer division by 2^32. */
  lemma FloorOfQuotient(n: nat)
    ensures (n as real / 4294967296.0).Floor == n / 0x1_0000_0000
  {
    var q, r := n / 0x1_0000_0000, n % 0x1_0000_0000;
    assert n as real / 4294967296.0 == q as real + r as real / 4294967296.0;
  }

  /** `Math.floor(d * (i + 1))`. */
  function Pick(d: real, i: nat): int {
    (d * (i + 1) as real).Floor
  }

  /** `Math.floor(draw * (i + 1))` is the exact exchange index: the draw is
      `u / 2^32`, so the product is `u * (i + 1) / 2^32` and its floor the
      integer quotient. */
  lemma DrawFloor(u: nat, i: nat)
    requires u < 0x1_0000_0000
    ensures Pick(Draw(u), i) == SwapPartner(u, i)
  {
    DivMul(u as real, (i + 1) as real);
    RealOfProduct(u, i + 1);
    FloorOfQuotient(u * (i + 1));
  }

  /** The shuffle's loop from index `i` down to 1 on `a`, with the generator
      in state `s`: the final arrangement and the generator's final state. */
  function ShuffleFrom<T>(a: seq<T>, s: bv32, i: int): (seq<T>, bv32)
    requires i < |a|
    decreases i
  {
    if i <= 0 then (a, s)
    else
      var s' := s + Increment;
      ShuffleFrom(Swap(a, i, SwapPartner(Output(s'), i)), s', i - 1)
  }

  /** One turn of the shuffle's loop: draw, then exchange element `i` with
      the drawn partner. */
  lemma ShuffleStep<T>(a: seq<T>, s: bv32, i: int)
    requires 0 < i < |a|
    ensures ShuffleFrom(a, s, i) ==
      ShuffleFrom(Swap(a, i, SwapPartner(Output(s + Increment), i)), s + Increment, i - 1)
  {
  }

  /** `shuffle(a, rand)` with the generator in state `s`. */
  function ShuffleSpec<T>(a: seq<T>, s: bv32): (seq<T>, bv32) {
    ShuffleFrom(a, s, |a| - 1)
  }

  /** The shuffle rearranges: same length, same elements, same multiplicities. */
  lemma {:induction false} ShuffleFromPermutes<T>(a: seq<T>, s: bv32, i: int)
    requires i < |a|
    ensures |ShuffleFrom(a, s, i).0| == |a|
    ensures multiset(ShuffleFrom(a, s, i).0) == multiset(a)
    decreases i
  {
    if i > 0 {
      var s' := s + Increment;
      var j := SwapPartner(Output(s'), i);
      SwapFacts(a, i, j);
      ShuffleFromPermutes(Swap(a, i, j), s', i - 1);
    }
  }

  /** The shuffle from index `i` takes exactly `i` draws (none when `i <= 0`). */
  lemma {:induction false} ShuffleFromDraws<T>(a: seq<T>, s: bv32, i: int)
    requires i < |a|
    ensures ShuffleFrom(a, s, i).1 == Advance(s, if i <= 0 then 0 else i)
    decreases i
  {
    if i > 0 {
      var s' := s + Increment;
      ShuffleFromDraws(Swap(a, i, SwapPartner(Output(s'), i)), s', i - 1);
    }
  }

  /** Elements with distinct keys keep distinct keys after the shuffle. */
  lemma {:induction false} ShuffleFromKeepsDistinct<T, K>(a: seq<T>, s: bv32, i: int, key: T -> K)
    requires i < |a| && DistinctBy(a, key)
    ensures DistinctBy(ShuffleFrom(a, s, i).0, key)
    decreases i
  {
    if i > 0 {
      var s' := s + Increment;
      var j := SwapPartner(Output(s'), i);
      SwapKeepsDistinct(a, i, j, key);
      ShuffleFromKeepsDistinct(Swap(a, i, j), s', i - 1, key);
    }
  }

  /** A shuffle of `n` elements is a permutation and consumes max(0, n - 1) draws. */
  lemma ShuffleFacts<T>(a: seq<T>, s: bv32)
    ensures |ShuffleSpec(a, s).0| == |a|
    ensures multiset(ShuffleSpec(a, s).0) == multiset(a)
    ensures ShuffleSpec(a, s).1 == Advance(s, if |a| == 0 then 0 else |a| - 1)
  {
    ShuffleFromPermutes(a, s, |a| - 1);
    ShuffleFromDraws(a, s, |a| - 1);
  }

  /** The generator of `seededRandom`: its state `s` is advanced by every draw. */
  class Rng {
    var s: bv32

    constructor (seed: int)
      ensures s == Int32Bits(seed)
    {
      s := Int32Bits(seed);
    }

    method Next() returns (d: real)
      modifies this
      ensures s == old(s) + Increment
      ensures d == Draw(Output(s))
    {
      s := s + Increment;
      d := Draw(Output(s));
    }
  }

  /** `shuffle`: copies `arr` into a fresh array and, for `i` from the last
      index down to 1, exchanges element `i` with the one at the drawn index. */
  method Shuffle<T>(arr: seq<T>, rand: Rng) returns (r: seq<T>)
    modifies rand
    ensures (r, rand.s) == ShuffleSpec(arr, old(rand.s))
  {
    var a := new T[|arr|](k requires 0 <= k < |arr| => arr[k]);
    assert a[..] == arr;
    var i := a.Length - 1;
    while i > 0
      invariant -1 <= i < a.Length
      invariant ShuffleFrom(a[..], rand.s, i) == ShuffleSpec(arr, old(rand.s))
      decreases i
    {
      ghost var before, s0 := a[..], rand.s;
      var d := rand.Next();
      ghost var u := Output(rand.s);
      DrawFloor(u, i);
      var j := Pick(d, i);
      ShuffleStep(before, s0, i);
      var tmp := a[i];
      a[i] := a[j];
      a[j] := tmp;
      SwapFacts(before, i, j);
      assert a[..] == Swap(before, i, j);
      i := i - 1;
    }
    r := a[..];
  }

  datatype LevelSetup = LevelSetup(
    questionObjectId: string,
    keyObjectId: string,
    selectedQuestions: seq<Question>,
    keyWorldPosition: Vec3,
    questionObject: RoomObjectDef,
    keyObject: RoomObjectDef)

  /** The two ways the setup fails: no object can hold the question, or
      none other than the question holder can hide the key (the source then
      reads a field of an undefined object). */
  datatype SetupError = NoQuestionHolder | NoKeyHider

  /** Where the key appears when the hider does not say. */
  const DefaultKeyPosition := Vec3(0.0, -2.0, 0.0)

  /** How many questions a level uses. */
  const QuestionsPerLevel := 3

  /** The generator's initial state for a level and a seed. */
  function GeneratorSeed(level: int, seed: int): bv32 {
    Int32Bits(seed * 31 + level * 7)
  }

  /** The key position of the hider, or the default one. */
  function KeyPositionOf(o: RoomObjectDef): Vec3 {
    if o.keyWorldPosition.Some? then o.keyWorldPosition.value else DefaultKeyPosition
  }

  /** `useLevelSetup(level, seed)` over the given tables: one generator
      feeds three shuffles, of the question holders, of the key hiders other
      than the chosen holder, and of the level's questions, in that order. */
  function ResolveWith(objects: seq<RoomObjectDef>, questions: seq<Question>, level: int, seed: int)
    : Result<LevelSetup, SetupError>
  {
    var holders := ShuffleSpec(Filter(objects, HoldsQuestions()), GeneratorSeed(level, seed));
    if holders.0 == [] then Err(NoQuestionHolder)
    else
      var questionObject := holders.0[0];
      var hiders := ShuffleSpec(Filter(objects, HidesKeyExcept(questionObject.id)), holders.1);
      if hiders.0 == [] then Err(NoKeyHider)
      else
        var keyObject := hiders.0[0];
        var picked := ShuffleSpec(Filter(questions, LevelIs(level)), hiders.1);
        Ok(LevelSetup(questionObject.id, keyObject.id, Take(picked.0, QuestionsPerLevel),
                      KeyPositionOf(keyObject), questionObject, keyObject))
  }

  /** The first element of a shuffle is one of the shuffled elements. */
  lemma ShuffledHead<T>(a: seq<T>, s: bv32)
    requires ShuffleSpec(a, s).0 != []
    ensures a != [] && ShuffleSpec(a, s).0[0] in a
  {
    ShuffleFacts(a, s);
    var h := ShuffleSpec(a, s).0[0];
    assert h in multiset(ShuffleSpec(a, s).0);
  }

  /** A filter's first element after a shuffle satisfies the filter and
      comes from the filtered table. */
  lemma ShuffledFilterHead<T>(xs: seq<T>, p: T -> bool, s: bv32)
    requires ShuffleSpec(Filter(xs, p), s).0 != []
    ensures ShuffleSpec(Filter(xs, p), s).0[0] in xs
    ensures p(ShuffleSpec(Filter(xs, p), s).0[0])
  {
    ShuffledHead(Filter(xs, p), s);
    FilterMembers(xs, p);
  }

  /** The chosen objects: the holder can hold questions, the hider can hide
      the key and differs from the holder, both come from the table, the ids
      are theirs, and the key position is the hider's or the default. */
  lemma ResolveRoles(objects: seq<RoomObjectDef>, questions: seq<Question>, level: int, seed: int)
    ensures var r := ResolveWith(objects, questions, level, seed);
      r.Ok? ==>
        && r.value.questionObject in objects && r.value.questionObject.canHoldQuestions
        && r.value.keyObject in objects && r.value.keyObject.canHideKey
        && r.value.questionObjectId == r.value.questionObject.id
        && r.value.keyObjectId == r.value.keyObject.id
        && r.value.keyObjectId != r.value.questionObjectId
        && r.value.keyWorldPosition ==
             (if r.value.keyObject.keyWorldPosition.Some? then r.value.keyObject.keyWorldPosition.value
              else Vec3(0.0, -2.0, 0.0))
  {
    var r := ResolveWith(objects, questions, level, seed);
    if r.Ok? {
      var holders := ShuffleSpec(Filter(objects, HoldsQuestions()), GeneratorSeed(level, seed));
      ShuffledFilterHead(objects, HoldsQuestions(), GeneratorSeed(level, seed));
      var qo := holders.0[0];
      ShuffledFilterHead(objects, HidesKeyExcept(qo.id), holders.1);
      var ko := ShuffleSpec(Filter(objects, HidesKeyExcept(qo.id)), holders.1).0[0];
      assert HidesKeyExcept(qo.id)(ko) && CanHideKey()(ko);
    }
  }

  /** Three questions drawn from the shuffled questions of `level`: as many
      as there are up to three, each one of `level`, and with distinct ids
      when the pool has them. */
  lemma ShuffledSelection(questions: seq<Question>, level: int, s: bv32)
    ensures var pool := Filter(questions, LevelIs(level));
      var sel := Take(ShuffleSpec(pool, s).0, QuestionsPerLevel);
      && |sel| == (if |pool| < 3 then |pool| else 3)
      && (forall k :: 0 <= k < |sel| ==> sel[k] in questions && sel[k].level == level)
      && (DistinctBy(pool, QuestionId()) ==> DistinctBy(sel, QuestionId()))
  {
    var pool := Filter(questions, LevelIs(level));
    var picked := ShuffleSpec(pool, s).0;
    var sel := Take(picked, QuestionsPerLevel);
    ShuffleFacts(pool, s);
    FilterMembers(questions, LevelIs(level));
    forall k | 0 <= k < |sel| ensures sel[k] in questions && sel[k].level == level {
      assert sel[k] in multiset(picked);
      assert sel[k] in pool;
    }
    if DistinctBy(pool, QuestionId()) {
      ShuffleFromKeepsDistinct(pool, s, |pool| - 1, QuestionId());
    }
  }

  /** The selected questions: at most three, fewer only when the level has
      fewer, all from the table and of the level, and with distinct ids when
      the level's questions have distinct ids. */
  lemma ResolveSelection(objects: seq<RoomObjectDef>, questions: seq<Question>, level: int, seed: int)
    ensures var r := ResolveWith(objects, questions, level, seed);
      var pool := Filter(questions, LevelIs(level));
      r.Ok? ==>
        && |r.value.selectedQuestions| == (if |pool| < 3 then |pool| else 3)
        && (forall k :: 0 <= k < |r.value.selectedQuestions| ==>
              r.value.selectedQuestions[k] in questions && r.value.selectedQuestions[k].level == level)
        && (DistinctBy(pool, QuestionId()) ==> DistinctBy(r.value.selectedQuestions, QuestionId()))
  {
    var r := ResolveWith(objects, questions, level, seed);
    if r.Ok? {
      var holders := ShuffleSpec(Filter(objects, HoldsQuestions()), GeneratorSeed(level, seed));
      var hiders := ShuffleSpec(Filter(objects, HidesKeyExcept(holders.0[0].id)), holders.1);
      assert r.value.selectedQuestions
          == Take(ShuffleSpec(Filter(questions, LevelIs(level)), hiders.1).0, QuestionsPerLevel);
      ShuffledSelection(questions, level, hiders.1);
    }
  }

  /** The setup fails for want of a holder exactly when no object can hold
      questions. */
  lemma ResolveNeedsHolder(objects: seq<RoomObjectDef>, questions: seq<Question>, level: int, seed: int)
    ensures ResolveWith(objects, questions, level, seed) == Err(NoQuestionHolder) <==>
      forall k :: 0 <= k < |objects| ==> !objects[k].canHoldQuestions
  {
    var pool := Filter(objects, HoldsQuestions());
    var holders := ShuffleSpec(pool, GeneratorSeed(level, seed));
    ShuffleFacts(pool, GeneratorSeed(level, seed));
    FilterMembers(objects, HoldsQuestions());
    if holders.0 != [] {
      assert pool[0] in objects && pool[0].canHoldQuestions;
    } else {
      assert pool == [];
    }
  }

  /** The setup succeeds whenever some object can hold questions and every
      such object leaves another one that can hide the key. */
  lemma ResolveSucceeds(objects: seq<RoomObjectDef>, questions: seq<Question>, level: int, seed: int)
    requires exists o :: o in objects && o.canHoldQuestions
    requires forall h :: h in objects && h.canHoldQuestions ==>
      exists o :: o in objects && HidesKeyExcept(h.id)(o)
    ensures ResolveWith(objects, questions, level, seed).Ok?
  {
    var s0 := GeneratorSeed(level, seed);
    var pool := Filter(objects, HoldsQuestions());
    var holders := ShuffleSpec(pool, s0);
    ShuffleFacts(pool, s0);
    FilterMembers(objects, HoldsQuestions());
    var o :| o in objects && o.canHoldQuestions;
    assert o in pool by {
      var k :| 0 <= k < |objects| && objects[k] == o;
      assert HoldsQuestions()(objects[k]);
    }
    assert holders.0 != [];
    ShuffledFilterHead(objects, HoldsQuestions(), s0);
    var qo := holders.0[0];
    var keyPool := Filter(objects, HidesKeyExcept(qo.id));
    ShuffleFacts(keyPool, holders.1);
    FilterMembers(objects, HidesKeyExcept(qo.id));
    var w :| w in objects && HidesKeyExcept(qo.id)(w);
    assert w in keyPool by {
      var k :| 0 <= k < |objects| && objects[k] == w;
    }
  }

  /** The setup depends on the seed only through the generator's initial
      state. */
  lemma ResolveDependsOnGeneratorSeed(objects: seq<RoomObjectDef>, questions: seq<Question>,
                                      level: int, seed: int, seed': int)
    requires GeneratorSeed(level, seed) == GeneratorSeed(level, seed')
    ensures ResolveWith(objects, questions, level, seed) == ResolveWith(objects, questions, level, seed')
  {
  }

  /** `q => q.id`, the key that tells questions apart. */
  function QuestionId(): Question -> string {
    (q: Question) => q.id
  }

  /** Distinct ids, stated with the key function. */
  lemma DistinctIdsByKey(qs: seq<Question>)
    ensures DistinctIds(qs) <==> DistinctBy(qs, QuestionId())
  {
    if DistinctBy(qs, QuestionId()) {
      forall x, y | 0 <= x < y < |qs| ensures qs[x].id != qs[y].id {
        assert QuestionId()(qs[x]) != QuestionId()(qs[y]);
      }
    }
  }

  /** On the game's own tables the setup of every level succeeds, picks
      three distinct questions of that level, and places the key where its
      hider says. */
  lemma CatalogSetup(level: int, seed: int)
    requires 1 <= level <= 5
    ensures var r := ResolveWith(RoomObjects, Questions, level, seed);
      && r.Ok?
      && |r.value.selectedQuestions| == 3
      && DistinctIds(r.value.selectedQuestions)
      && (forall k :: 0 <= k < 3 ==> r.value.selectedQuestions[k].level == level)
      && r.value.keyObject.keyWorldPosition == Some(r.value.keyWorldPosition)
  {
    CatalogCanResolve();
    ResolveSucceeds(RoomObjects, Questions, level, seed);
    ResolveRoles(RoomObjects, Questions, level, seed);
    ResolveSelection(RoomObjects, Questions, level, seed);
    HidersHaveKeyPosition();
    LevelPoolDistinct(level);
    DistinctIdsByKey(Filter(Questions, LevelIs(level)));
    DistinctIdsByKey(ResolveWith(RoomObjects, Questions, level, seed).value.selectedQuestions);
  }

  /** The object table meets both conditions of `ResolveSucceeds`. */
  lemma CatalogCanResolve()
    ensures exists o :: o in RoomObjects && o.canHoldQuestions
    ensures forall h :: h in RoomObjects && h.canHoldQuestions ==>
      exists o :: o in RoomObjects && HidesKeyExcept(h.id)(o)
  {
    assert RoomObjects[0].canHoldQuestions;
    forall h | h in RoomObjects && h.canHoldQuestions
      ensures exists o :: o in RoomObjects && HidesKeyExcept(h.id)(o)
    {
      EveryHolderLeavesAHider(h);
    }
  }

  /** The resolver as the hook runs it: one generator object threaded
      through the three shuffles. */
  method Resolve(objects: seq<RoomObjectDef>, questions: seq<Question>, level: int, seed: int)
    returns (r: Result<LevelSetup, SetupError>)
    ensures r == ResolveWith(objects, questions, level, seed)
  {
    var rand := new Rng(seed * 31 + level * 7);
    var holders := Shuffle(Filter(objects, HoldsQuestions()), rand);
    ghost var hs := ShuffleSpec(Filter(objects, HoldsQuestions()), GeneratorSeed(level, seed));
    assert holders == hs.0 && rand.s == hs.1;
    if holders == [] {
      return Err(NoQuestionHolder);
    }
    var questionObject := holders[0];
    var hiders := Shuffle(Filter(objects, HidesKeyExcept(questionObject.id)), rand);
    ghost var ks := ShuffleSpec(Filter(objects, HidesKeyExcept(questionObject.id)), hs.1);
    assert hiders == ks.0 && rand.s == ks.1;
    if hiders == [] {
      return Err(NoKeyHider);
    }
    var keyObject := hiders[0];
    var shuffledQuestions := Shuffle(Filter(questions, LevelIs(level)), rand);
    assert shuffledQuestions == ShuffleSpec(Filter(questions, LevelIs(level)), ks.1).0;
    r := Ok(LevelSetup(questionObject.id, keyObject.id, Take(shuffledQuestions, QuestionsPerLevel),
                       KeyPositionOf(keyObject), questionObject, keyObject));
  }

  /** `useLevelSetup(level, seed)` on the game's tables. */
  method ResolveLevel(level: int, seed: int) returns (r: Result<LevelSetup, SetupError>)
    ensures r == ResolveWith(RoomObjects, Questions, level, seed)
  {
    r := Resolve(RoomObjects, Questions, level, seed);
  }
}
