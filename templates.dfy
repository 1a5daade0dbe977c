/**
 * Command templates and `str.format` with keyword arguments. A template is
 * kept already parsed into literal text and named fields; formatting fills
 * each field from the supplied values and fails, as Python's `KeyError`
 * does, when a field has no value.
 */
module Templates {
  import opened Wrappers

  /** The field names `Grader` supplies to its command templates. */
  datatype Field = SrcPath | ExeDir | ExePath | MaxMemory

  datatype Piece = Literal(text: string) | Placeholder(field: Field)

  type Template = seq<Piece>

  /** The fields a template refers to. */
  function Fields(t: Template): set<Field>
  {
    set k | 0 <= k < |t| && t[k].Placeholder? :: t[k].field
  }

  /** `t.format(**values)`. */
  function Format(t: Template, values: map<Field, string>): Option<string>
  {
    if t == [] then Some("")
    else
      var head := match t[0]
        case Literal(text) => Some(text)
        case Placeholder(f) => if f in values then Some(values[f]) else None;
      var tail := Format(t[1..], values);
      if head.Some? && tail.Some? then Some(head.value + tail.value) else None
  }

  /** Formatting succeeds exactly when every field the template refers to
      has a value. */
  lemma {:induction false} FormatDefined(t: Template, values: map<Field, string>)
    ensures Format(t, values).Some? <==> Fields(t) <= values.Keys
  {
    if t != [] {
      FormatDefined(t[1..], values);
      var own := if t[0].Placeholder? then {t[0].field} else {};
      assert Fields(t) == own + Fields(t[1..]) by {
        forall f | f in Fields(t) ensures f in own + Fields(t[1..]) {
          var k :| 0 <= k < |t| && t[k].Placeholder? && t[k].field == f;
          if k > 0 {
            assert t[1..][k - 1] == t[k];
          }
        }
        forall f | f in Fields(t[1..]) ensures f in Fields(t) {
          var k :| 0 <= k < |t[1..]| && t[1..][k].Placeholder? && t[1..][k].field == f;
          assert t[k + 1] == t[1..][k];
        }
      }
    }
  }
}
