/** The Python library calls whose results the model does not interpret.
    Each is a parameter, so every property proved holds whatever they return. */
module Runtime {
  import opened Values

  datatype Env = Env(
    /** `round(x, ndigits)` on binary floats. */
    round: (real, int) -> real,
    /** `statistics.stdev(xs)`, the sample standard deviation. */
    stdev: seq<real> -> real,
    /** `float(s)` on text; `None` where Python raises `ValueError`. */
    parseFloat: string -> Option<real>,
    /** `date.fromisoformat(s).isoformat()`; `None` where Python raises `ValueError`. */
    parseIsoDate: string -> Option<string>,
    /** `str(v)` for numbers, lists and dicts inside f-strings. */
    repr: Value -> string)
}
