/** The toolkit widget that every wrapper drives, reduced to a record of what
    the wrappers last wrote to it. Its own behaviour (drawing, geometry
    managers, the event loop) belongs to the toolkit and is not modelled. */
module Toolkit {
  import opened Values

  /** Which geometry manager last took the widget. */
  datatype Manager = Unmanaged | Packed | Gridded | Placed

  /** Everything a wrapper can observe of a widget, as one value. */
  datatype Look = Look(
    options: map<string, Value>,
    manager: Manager,
    geometry: map<string, Value>,
    x: int,
    y: int,
    alpha: real)

  class Widget {
    /** Options set through `config` (`bg`, `fg`, `text`, `font`, ...). */
    var options: map<string, Value>
    var manager: Manager
    /** The keywords of the last `pack`, `grid` or `place` call. */
    var geometry: map<string, Value>
    /** The last position given to `place` / `place_configure`. */
    var x: int
    var y: int
    /** The window's `-alpha` attribute. */
    var alpha: real

    constructor (options: map<string, Value>)
      ensures this.options == options && manager == Unmanaged && geometry == map[]
      ensures x == 0 && y == 0 && alpha == 1.0
    {
      this.options := options;
      manager, geometry := Unmanaged, map[];
      x, y, alpha := 0, 0, 1.0;
    }

    function Snapshot(): Look
      reads this
    {
      Look(options, manager, geometry, x, y, alpha)
    }

    /** `cget(key)` for a colour or text option; the empty string when unset. */
    function Cget(key: string): string
      reads this
    {
      if key in options && options[key].Str? then options[key].s else ""
    }

    /** `config(**changes)`. */
    method Configure(changes: map<string, Value>)
      modifies this`options
      ensures options == old(options) + changes
    {
      options := options + changes;
    }

    /** `pack`, `grid` or `place` with the given keywords. */
    method Manage(m: Manager, kwargs: map<string, Value>)
      modifies this`manager, this`geometry
      ensures manager == m && geometry == kwargs
    {
      manager, geometry := m, kwargs;
    }

    /** `place(x=nx, y=ny)` / `place_configure(x=nx, y=ny)`: a call of the
        placer whose keywords are the two coordinates. */
    method MoveTo(nx: int, ny: int)
      modifies this`x, this`y, this`manager, this`geometry
      ensures x == nx && y == ny && manager == Placed
      ensures geometry == map["x" := Int(nx), "y" := Int(ny)]
    {
      x, y := nx, ny;
      manager, geometry := Placed, map["x" := Int(nx), "y" := Int(ny)];
    }

    /** `attributes("-alpha", a)`. */
    method SetAlpha(a: real)
      modifies this`alpha
      ensures alpha == a
    {
      alpha := a;
    }
  }
}
