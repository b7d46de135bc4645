/**
 * The figure registry of the newer package (`pypostester.visualization.registry`): a dict
 * from figure name to figure class, updated in place by `register`. Only subclasses of
 * the figure base class are accepted.
 */
module FigureCatalog {
  import opened Outcomes
  import opened PyDict
  import opened PyValues

  /** A figure class: its `name` attribute and whether it derives from the figure base class. */
  class FigureClass {
    const name: string
    const isFigureSubclass: bool

    constructor (name: string, isFigureSubclass: bool)
      ensures this.name == name && this.isFigureSubclass == isFigureSubclass
    {
      this.name := name;
      this.isFigureSubclass := isFigureSubclass;
    }
  }

  /** The registry: `_registry`, a dict whose key order is kept in `names`. */
  class FigureRegistry {
    var names: seq<string>
    var figures: map<string, FigureClass>

    /** The key order lists every key of the dict once, and only figure subclasses are held. */
    ghost predicate Valid()
      reads this, figures.Values
    {
      && Distinct(names) && Elems(names) == figures.Keys
      && forall n :: n in figures ==> figures[n].isFigureSubclass && figures[n].name == n
    }

    constructor ()
      ensures Valid() && names == [] && figures == map[]
    {
      names := [];
      figures := map[];
    }

    /** `register`: a class that is not a figure subclass is refused with ValueError and
        nothing changes; otherwise it is stored under its `name`, replacing an earlier
        class of that name, and every other entry stays as it was. */
    method Register(figure: FigureClass) returns (r: Result<(), Fault>)
      requires Valid()
      modifies this
      ensures Valid()
      ensures !figure.isFigureSubclass ==>
        r == Err(ValueError("Figure class must be a subclass of BaseFigure")) && names == old(names) && figures == old(figures)
      ensures figure.isFigureSubclass ==>
        r == Ok(()) && figures == old(figures)[figure.name := figure] && names == KeysAfterStore(old(names), figure.name)
    {
      if !figure.isFigureSubclass {
        return Err(ValueError("Figure class must be a subclass of BaseFigure"));
      }
      names := KeysAfterStore(names, figure.name);
      figures := figures[figure.name := figure];
      r := Ok(());
    }

    /** `get`: the class registered under the name, or ValueError for an unknown name. */
    method Get(name: string) returns (r: Result<FigureClass, Fault>)
      requires Valid()
      ensures r.Ok? <==> name in figures
      ensures r.Ok? ==> r.value == figures[name] && r.value.name == name && r.value.isFigureSubclass
      ensures r.Err? ==> r.error == ValueError("Figure '" + name + "' is not registered")
    {
      if name !in figures {
        return Err(ValueError("Figure '" + name + "' is not registered"));
      }
      r := Ok(figures[name]);
    }

    /** `available_figures`: every registered name once, in first-registration order. */
    function AvailableFigures(): (r: seq<string>)
      requires Valid()
      reads this, figures.Values
      ensures r == names
      ensures Distinct(r) && Elems(r) == figures.Keys
      ensures forall i :: 0 <= i < |r| ==> r[i] in figures && figures[r[i]].name == r[i]
    {
      names
    }
  }
}
