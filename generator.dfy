/**
 * The Generator adapter: a simulator whose entities publish one attribute, p,
 * the power a profile source reports at the step's wall-clock instant, and
 * which asks to be stepped again only when the profile next changes.
 */
module CosimGenerator {
  import opened Wrappers
  import opened CosimUtil

  /**
   * A profile source: the power it reports at an instant, and the next
   * instant at which that power may change.  Its implementation is not part
   * of this model; any pair of functions can stand for it.
   */
  datatype Generator = Generator(powerAt: DateTime -> real, nextUpdate: DateTime -> DateTime)

  /** The manifest GeneratorSim declares: one public kind, Generator, built from a generator and publishing p. */
  const GENERATOR_META := Meta("time-based", map["Generator" := ModelSpec(true, false, ["generator"], ["p"])])

  /** The promise next_update makes: between an instant and its next update, the power does not change. */
  ghost predicate ProfileSteady(g: Generator)
  {
    forall d, d' :: d <= d' < g.nextUpdate(d) ==> g.powerAt(d') == g.powerAt(d)
  }

  /** One Generator entity. */
  class GeneratorModel {
    const generator: Generator
    const clock: Clock
    /** The published power; None until the first step. */
    var p: Option<real>

    constructor (generator: Generator, clock: Clock)
      ensures this.generator == generator && this.clock == clock
      ensures p == None
    {
      this.generator := generator;
      this.clock := clock;
      p := None;
    }

    /** step: p becomes the power at the step's instant; the inputs are ignored. */
    method Step(time: int, inputs: Inputs<real>)
      modifies this
      ensures p == Some(generator.powerAt(clock.toDatetime(time)))
    {
      var dt := clock.toDatetime(time);
      p := Some(generator.powerAt(dt));
    }
  }

  /** The Generator simulator: the Clock and the profile source set by init, and the entities it created. */
  class GeneratorSim {
    var clock: Option<Clock>
    var generator: Option<Generator>
    var entities: seq<GeneratorModel>

    constructor ()
      ensures clock == None && generator == None && entities == []
    {
      clock := None;
      generator := None;
      entities := [];
    }

    /** Whether init has run. */
    predicate Initialized()
      reads this
    {
      clock.Some? && generator.Some?
    }

    /** next_step: the tick of the profile's next update after the current tick's instant. */
    function NextStep(time: int): (r: int)
      reads this
      requires Initialized()
      ensures var c, g := clock.value, generator.value;
        OrderedClock(c) ==> c.toDatetime(r) <= g.nextUpdate(c.toDatetime(time))
    {
      var dt := clock.value.toDatetime(time);
      var nextDt := generator.value.nextUpdate(dt);
      clock.value.toSimtime(nextDt)
    }

    /** init: stores the Clock of the simulation start and the profile source, and returns the manifest. */
    method Init(clock: Clock, generator: Generator) returns (meta: Meta)
      modifies this
      ensures this.clock == Some(clock) && this.generator == Some(generator) && entities == old(entities)
      ensures meta == GENERATOR_META
      ensures forall time :: NextStep(time) == clock.toSimtime(generator.nextUpdate(clock.toDatetime(time)))
    {
      this.clock := Some(clock);
      this.generator := Some(generator);
      meta := GENERATOR_META;
    }

    /**
     * create: num new Generator entities, all sharing the simulator's one
     * profile source and Clock.  The scheduler only asks for kinds the
     * manifest declares, so any other kind is refused.
     */
    method Create(num: nat, model: string) returns (r: Result<seq<GeneratorModel>, CreateError>)
      requires Initialized()
      modifies this
      ensures clock == old(clock) && generator == old(generator)
      ensures model !in GENERATOR_META.models ==> r == Failure(UnknownModelKind(model)) && entities == old(entities)
      ensures model in GENERATOR_META.models ==> r.Success? && entities == old(entities) + r.value
      ensures r.Success? ==> |r.value| == num
      ensures r.Success? ==> forall m :: m in r.value ==>
        fresh(m) && m.generator == generator.value && m.clock == clock.value && m.p == None
      ensures r.Success? ==> forall i, j :: 0 <= i < j < |r.value| ==> r.value[i] != r.value[j]
    {
      if model !in GENERATOR_META.models {
        return Failure(UnknownModelKind(model));
      }
      var created: seq<GeneratorModel> := [];
      while |created| < num
        invariant clock == old(clock) && generator == old(generator) && entities == old(entities)
        invariant |created| <= num
        invariant forall m :: m in created ==>
          fresh(m) && m.generator == generator.value && m.clock == clock.value && m.p == None
        invariant forall i, j :: 0 <= i < j < |created| ==> created[i] != created[j]
      {
        var m := new GeneratorModel(generator.value, clock.value);
        created := created + [m];
      }
      entities := entities + created;
      r := Success(created);
    }
  }

  /**
   * Sparse stepping loses nothing: on an ordered Clock and a profile that keeps
   * next_update's promise, every tick the scheduler skips between a step and
   * next_step would have published the same power as that step.
   */
  lemma SparseSteppingSound(sim: GeneratorSim, time: int, skipped: int)
    requires sim.Initialized() && OrderedClock(sim.clock.value) && ProfileSteady(sim.generator.value)
    requires time <= skipped < sim.NextStep(time)
    ensures var c, g := sim.clock.value, sim.generator.value;
      g.powerAt(c.toDatetime(skipped)) == g.powerAt(c.toDatetime(time))
  {
    var c, g := sim.clock.value, sim.generator.value;
    var d, d' := c.toDatetime(time), c.toDatetime(skipped);
    var next := sim.NextStep(time);
    assert c.toDatetime(next) <= g.nextUpdate(d);
    assert d' < c.toDatetime(next);
    if time < skipped {
      assert d < d';
    }
    assert d <= d' < g.nextUpdate(d);
  }
}
