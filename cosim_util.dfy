/**
 * The shared vocabulary of the co-simulation adapters in vessim/cosim: wall-clock
 * instants, the Clock that converts ticks to instants and back, the inputs the
 * scheduler hands to a step, and the capability manifest ("meta") an adapter
 * declares.  The Clock and the flattening of inputs live in vessim/cosim/_util,
 * which is not part of this model: they are kept abstract, as function values.
 */
module CosimUtil {

  /** A wall-clock instant, as a count of a fixed unit from an arbitrary epoch; only its order is used. */
  type DateTime = int

  /**
   * The Clock's two conversions: a simulation tick to its wall-clock instant,
   * and an instant back to a tick.  Any pair of functions can stand for them.
   */
  datatype Clock = Clock(toDatetime: int -> DateTime, toSimtime: DateTime -> int)

  /**
   * The ordering a tick clock has: later ticks map to later instants, and
   * converting an instant to a tick rounds down (the tick's instant is never after it).
   */
  ghost predicate OrderedClock(c: Clock)
  {
    && (forall t, t' :: t < t' ==> c.toDatetime(t) < c.toDatetime(t'))
    && (forall dt :: c.toDatetime(c.toSimtime(dt)) <= dt)
  }

  /** Inputs as the scheduler delivers them: attribute name, then source entity, then value. */
  type Inputs<V> = map<string, map<string, V>>

  /** One model kind of a manifest: whether it is public, whether it accepts any input, its parameters and attributes. */
  datatype ModelSpec = ModelSpec(isPublic: bool, anyInputs: bool, params: seq<string>, attrs: seq<string>)

  /** The capability manifest an adapter returns from init. */
  datatype Meta = Meta(simType: string, models: map<string, ModelSpec>)

  /** The error of create for a model kind the manifest does not declare. */
  datatype CreateError = UnknownModelKind(model: string)
}
