/** The part of Go's `strings` package the model reasons with:
    `strings.Split(s, sep)` for a one-character separator. */
module GoStrings {

  /** `strings.Split(s, [sep])`: the fields of `s` between occurrences of `sep`.
      Like Go, splitting the empty string gives one empty field. */
  function Split(s: string, sep: char): (fields: seq<string>)
    ensures |fields| >= 1
  {
    if s == [] then [""]
    else
      var rest := Split(s[1..], sep);
      if s[0] == sep then [""] + rest
      else [[s[0]] + rest[0]] + rest[1..]
  }

  /** A field that precedes the separator is split off whole. */
  lemma {:induction false} SplitField(field: string, sep: char, rest: string)
    requires sep !in field
    ensures Split(field + [sep] + rest, sep) == [field] + Split(rest, sep)
  {
    var s := field + [sep] + rest;
    if field == [] {
      assert s == [sep] + rest;
      assert s[1..] == rest;
    } else {
      assert s[0] == field[0];
      assert s[1..] == field[1..] + [sep] + rest;
      SplitField(field[1..], sep, rest);
      assert [field[0]] + field[1..] == field;
    }
  }

  /** No field that Split produces contains the separator. */
  lemma {:induction false} SplitFieldsAreFree(s: string, sep: char)
    ensures forall k :: 0 <= k < |Split(s, sep)| ==> sep !in Split(s, sep)[k]
  {
    if s != [] {
      SplitFieldsAreFree(s[1..], sep);
      var rest := Split(s[1..], sep);
      if s[0] != sep {
        assert sep !in rest[0];
        assert sep !in [s[0]] + rest[0];
      }
    }
  }
}
