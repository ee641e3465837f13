/** The parts of the Spectrum class that the evaluators rely on. The class itself
    (spectrum.py) is not part of this model: its unit conversion and its name
    canonicalisation are kept abstract as the two functions of `Units`. */
module Spectra {
  import opened Outcomes
  import opened Numbers

  /** A spectrum type ("wavelength", "frequency", "energy") and a unit name. */
  datatype Frame = Frame(spectrumType: string, unit: string)

  /** `convert` maps one coordinate from one frame to another; `canon` gives the type and unit
      names a Spectrum stores when it is built from the given names. */
  datatype Units = Units(convert: (real, Frame, Frame) -> real, canon: Frame -> Frame)

  /** The state of a Spectrum object: its values and their frame. */
  datatype Sample = Sample(values: Payload<real>, frame: Frame)

  function ConvertOf(u: Units, from: Frame, to: Frame): real -> real {
    (x: real) => u.convert(x, from, to)
  }

  /** `convert_to(type, unit)`: the same coordinates expressed in another frame. */
  function Converted(u: Units, s: Sample, to: Frame): (r: Sample)
    ensures r.frame == to && SameShape(r.values, s.values)
  {
    Sample(Lift(s.values, ConvertOf(u, s.frame, to)), to)
  }

  /** Every value of `s`, converted into `frame`, lies between the least and the greatest of
      the range values. */
  predicate InRange(u: Units, range: seq<Bound>, frame: Frame, s: Sample) {
    |range| > 0 &&
    forall i :: 0 <= i < Size(s.values) ==>
      Within(u.convert(At(s.values, i), s.frame, frame), MinOf(range), MaxOf(range))
  }

  /** `valid_range.contains(spectrum)`: raises ValueError when a value lies outside. An empty
      range has no minimum and fails as well. */
  function Contains(u: Units, range: seq<Bound>, frame: Frame, s: Sample): (r: Result<()>)
    ensures r.Ok? <==> InRange(u, range, frame, s)
    ensures r.Err? ==> r.error == ValueError
  {
    if InRange(u, range, frame, s) then Ok(()) else Err(ValueError)
  }

  /** A Spectrum object, whose values and frame `convert_to(..., in_place=True)` overwrites. */
  class Spectrum {
    var values: Payload<real>
    var frame: Frame

    constructor (values: Payload<real>, frame: Frame)
      ensures this.values == values && this.frame == frame
    {
      this.values := values;
      this.frame := frame;
    }

    function State(): Sample
      reads this
    {
      Sample(values, frame)
    }

    method ConvertInPlace(u: Units, to: Frame)
      modifies this
      ensures State() == Converted(u, old(State()), to)
    {
      var converted := Converted(u, State(), to);
      values := converted.values;
      frame := to;
    }
  }
}
