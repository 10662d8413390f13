/** Reading a wind typed as "direction/speed" (script.js, lines 45-50). The text is split
    at every '/' as `String.prototype.split('/')` does; `parseFloat` itself is a library
    routine the model cannot see, so it is a parameter: it gives `None` for NaN. */
module WindText {
  import opened JsNumber
  import opened Wind

  /** `s.split(sep)`: the pieces between separators, empty pieces included. */
  function Split(s: string, sep: char): (parts: seq<string>)
    ensures |parts| >= 1
    ensures forall i :: 0 <= i < |parts| ==> sep !in parts[i]
  {
    if s == [] then [[]]
    else
      var rest := Split(s[1..], sep);
      if s[0] == sep then [[]] + rest
      else [[s[0]] + rest[0]] + rest[1..]
  }

  /** `parts.join(sep)`, the inverse of `Split`. */
  function Join(parts: seq<string>, sep: char): string
    requires |parts| >= 1
  {
    if |parts| == 1 then parts[0] else parts[0] + [sep] + Join(parts[1..], sep)
  }

  /** Splitting loses nothing: joining the pieces gives the text back. */
  lemma {:induction false} JoinSplit(s: string, sep: char)
    ensures Join(Split(s, sep), sep) == s
  {
    if s != [] {
      var rest := Split(s[1..], sep);
      JoinSplit(s[1..], sep);
      if s[0] == sep {
        assert Split(s, sep)[1..] == rest;
      } else {
        var parts := Split(s, sep);
        assert parts[1..] == rest[1..];
        if |rest| == 1 {
          assert Join(parts, sep) == [s[0]] + rest[0];
        } else {
          assert Join(rest, sep) == rest[0] + [sep] + Join(rest[1..], sep);
          assert Join(parts, sep) == [s[0]] + rest[0] + [sep] + Join(rest[1..], sep);
        }
        assert [s[0]] + s[1..] == s;
      }
    }
  }

  /** A piece without a separator, followed by the rest, forms the first piece together
      with the first piece of the rest. */
  lemma {:induction false} SplitPrefix(a: string, tail: string, sep: char)
    requires sep !in a
    ensures Split(a + tail, sep) ==
            [a + Split(tail, sep)[0]] + Split(tail, sep)[1..]
  {
    if a != [] {
      var s := a + tail;
      assert s[1..] == a[1..] + tail;
      assert s[0] == a[0] && s[0] != sep;
      var rest := Split(s[1..], sep);
      assert Split(s, sep) == [[s[0]] + rest[0]] + rest[1..];
      SplitPrefix(a[1..], tail, sep);
      assert rest == [a[1..] + Split(tail, sep)[0]] + Split(tail, sep)[1..];
      assert [a[0]] + (a[1..] + Split(tail, sep)[0]) == a + Split(tail, sep)[0];
    } else {
      var parts := Split(tail, sep);
      assert a + tail == tail;
      assert a + parts[0] == parts[0];
      assert [parts[0]] + parts[1..] == parts;
    }
  }

  /** Text without a separator is a single piece. */
  lemma SplitNoSeparator(a: string, sep: char)
    requires sep !in a
    ensures Split(a, sep) == [a]
  {
    SplitPrefix(a, [], sep);
    assert a + [] == a;
  }

  /** The text before the first separator is the first piece; the rest is split on. */
  lemma SplitAtSeparator(a: string, b: string, sep: char)
    requires sep !in a
    ensures Split(a + [sep] + b, sep) == [a] + Split(b, sep)
  {
    SplitPrefix(a, [sep] + b, sep);
    assert a + [sep] + b == a + ([sep] + b);
    assert ([sep] + b)[1..] == b;
    assert Split([sep] + b, sep) == [[]] + Split(b, sep);
    assert a + [] == a;
  }

  /** And joining pieces without separators splits back into the same pieces. */
  lemma {:induction false} SplitJoin(parts: seq<string>, sep: char)
    requires |parts| >= 1
    requires forall i :: 0 <= i < |parts| ==> sep !in parts[i]
    ensures Split(Join(parts, sep), sep) == parts
  {
    if |parts| == 1 {
      SplitNoSeparator(parts[0], sep);
    } else {
      SplitJoin(parts[1..], sep);
      SplitAtSeparator(parts[0], Join(parts[1..], sep), sep);
      assert [parts[0]] + parts[1..] == parts;
    }
  }

  /** `parseWind(val)`: an empty text is a calm wind; a text without '/' is a direction
      with speed 0; otherwise the first two pieces are the direction and the speed, each
      falling back to 0 when it parses to 0 or NaN. Further pieces are ignored. */
  function ParseWind(val: string, parse: string -> Option<real>): (w: Wind)
    ensures val == [] ==> w == Wind(0.0, 0.0)
  {
    if val == [] then Wind(0.0, 0.0)
    else
      var parts := Split(val, '/');
      if |parts| < 2 then
        Wind(OrDefault(parse(parts[0]), 0.0), 0.0)
      else
        Wind(OrDefault(parse(parts[0]), 0.0), OrDefault(parse(parts[1]), 0.0))
  }

  /** A text without '/' is a direction only; the speed is 0. */
  lemma ParseWindDirectionOnly(val: string, parse: string -> Option<real>)
    requires val != [] && '/' !in val
    ensures ParseWind(val, parse) == Wind(OrDefault(parse(val), 0.0), 0.0)
  {
    SplitNoSeparator(val, '/');
  }

  /** "dir/spd": the direction is read from the text before the first '/', the speed
      from the text between the first and the second '/'. */
  lemma ParseWindPair(a: string, b: string, parse: string -> Option<real>)
    requires '/' !in a
    ensures ParseWind(a + ['/'] + b, parse) ==
            Wind(OrDefault(parse(a), 0.0), OrDefault(parse(Split(b, '/')[0]), 0.0))
  {
    SplitAtSeparator(a, b, '/');
  }
}
