/**
 * The French translation lookup `t` (translations_fr.py): a dotted key path
 * walked one dictionary level per segment through the nested
 * `TRANSLATIONS` table, then an optional `str.format` with keyword
 * arguments.
 *
 * The table is a parameter; its French texts are data, not behaviour.  The
 * exceptions `t` lets escape are `Raised` outcomes named after their
 * Python class.
 */
module Translations {
  import opened Wrappers
  import opened Text

  /** A value of the table: a text, a list of texts (the option lists), or a nested dictionary. */
  datatype TValue =
    | Phrase(text: string)
    | Choices(items: seq<string>)
    | Table(entries: seq<(string, TValue)>)

  /** Keyword arguments, in call order; all the callers pass texts. */
  type Kwargs = seq<(string, string)>

  const KeyError := "KeyError"
  const TypeError := "TypeError"
  const ValueError := "ValueError"
  const IndexError := "IndexError"

  /** The first entry with key `k`. */
  function Lookup<V>(entries: seq<(string, V)>, k: string): (r: Option<V>)
    ensures r.None? <==> forall i :: 0 <= i < |entries| ==> entries[i].0 != k
    ensures r.Some? ==> exists i :: 0 <= i < |entries| && entries[i] == (k, r.value) && FirstWith(entries, k, i)
  {
    if entries == [] then None
    else if entries[0].0 == k then Some(entries[0].1)
    else
      var r := Lookup(entries[1..], k);
      if r.Some? then LookupShift(entries, k, r.value); r else r
  }

  /** No entry before position `i` has key `k`. */
  predicate FirstWith<V>(entries: seq<(string, V)>, k: string, i: nat) {
    forall j :: 0 <= j < i && j < |entries| ==> entries[j].0 != k
  }

  /** A first entry with key `k` in the tail is the first one in the whole list when the head has another key. */
  lemma LookupShift<V>(entries: seq<(string, V)>, k: string, v: V)
    requires entries != [] && entries[0].0 != k
    requires exists i :: 0 <= i < |entries[1..]| && entries[1..][i] == (k, v) && FirstWith(entries[1..], k, i)
    ensures exists i :: 0 <= i < |entries| && entries[i] == (k, v) && FirstWith(entries, k, i)
  {
    var i :| 0 <= i < |entries[1..]| && entries[1..][i] == (k, v) && FirstWith(entries[1..], k, i);
    assert entries[i + 1] == (k, v);
    forall j | 0 <= j < i + 1 && j < |entries| ensures entries[j].0 != k {
      if j > 0 {
        assert entries[j] == entries[1..][j - 1];
      }
    }
  }

  /** `value[key]`: a missing key raises `KeyError`; a text or a list cannot be indexed by a text. */
  function Index(value: TValue, key: string): (r: Outcome<TValue>)
    ensures r.Raised? ==> r.message == KeyError || r.message == TypeError
    ensures r.Raised? && r.message == TypeError <==> !value.Table?
  {
    match value
    case Table(entries) =>
      (match Lookup(entries, key)
       case Some(v) => Success(v)
       case None => Raised(KeyError))
    case _ => Raised(TypeError)
  }

  /** The value reached by walking `keys` from `value`, or the first exception. */
  function Walk(value: TValue, keys: seq<string>): Outcome<TValue> {
    if keys == [] then Success(value)
    else
      match Index(value, keys[0])
      case Raised(e) => Raised(e)
      case Success(next) => Walk(next, keys[1..])
  }

  /** `p + r` for an outcome `r`. */
  function Prepend(p: string, r: Outcome<string>): (q: Outcome<string>)
    ensures q.Raised? <==> r.Raised?
    ensures q.Raised? ==> q == r
  {
    match r
    case Success(t) => Success(p + t)
    case Raised(e) => Raised(e)
  }

  /**
   * The first piece of a format string and how many characters it takes: a
   * plain character is copied, `{{` and `}}` stand for braces, `{name}`
   * becomes the argument's text, and a malformed or unknown field raises.
   */
  function Token(s: string, kwargs: Kwargs): (r: Outcome<(string, nat)>)
    requires s != []
    ensures r.Success? ==> 1 <= r.value.1 <= |s|
  {
    if s[0] == '{' then
      if |s| >= 2 && s[1] == '{' then Success(("{", 2))
      else
        match Find(s[1..], '}')
        case None => Raised(ValueError)
        case Some(j) =>
          var name := s[1..j + 1];
          if '{' in name then Raised(ValueError)
          else if name == "" then Raised(IndexError)
          else
            match Lookup(kwargs, name)
            case None => Raised(KeyError)
            case Some(v) => Success((v, j + 2))
    else if s[0] == '}' then
      if |s| >= 2 && s[1] == '}' then Success(("}", 2)) else Raised(ValueError)
    else Success(([s[0]], 1))
  }

  /**
   * `s.format(**kwargs)` for fields that are plain names, scanning left to
   * right: the first malformed or unknown field raises.
   */
  function Format(s: string, kwargs: Kwargs): (r: Outcome<string>)
    decreases |s|
  {
    if s == [] then Success("")
    else
      match Token(s, kwargs)
      case Raised(e) => Raised(e)
      case Success((out, n)) => Prepend(out, Format(s[n..], kwargs))
  }

  /** Substitution only for a text reached with keyword arguments; anything else is returned as is. */
  function Finish(value: TValue, kwargs: Kwargs): Outcome<TValue> {
    if value.Phrase? && kwargs != [] then
      match Format(value.text, kwargs)
      case Success(t) => Success(Phrase(t))
      case Raised(e) => Raised(e)
    else Success(value)
  }

  /** `t(key_path, **kwargs)` */
  function Translate(translations: TValue, keyPath: string, kwargs: Kwargs): Outcome<TValue> {
    match Walk(translations, Split(keyPath, '.'))
    case Raised(e) => Raised(e)
    case Success(value) => Finish(value, kwargs)
  }

  /** `t`: the loop over the segments of the key path, then the conditional format. */
  method T(translations: TValue, keyPath: string, kwargs: Kwargs) returns (r: Outcome<TValue>)
    ensures r == Translate(translations, keyPath, kwargs)
  {
    var keys := Split(keyPath, '.');
    var value := translations;
    for i := 0 to |keys|
      invariant Walk(translations, keys) == Walk(value, keys[i..])
    {
      assert keys[i..][1..] == keys[i + 1..];
      var next := Index(value, keys[i]);
      if next.Raised? {
        return Raised(next.message);
      }
      value := next.value;
    }
    assert keys[|keys|..] == [];
    if value.Phrase? && kwargs != [] {
      var formatted := Format(value.text, kwargs);
      if formatted.Raised? {
        return Raised(formatted.message);
      }
      return Success(Phrase(formatted.value));
    }
    return Success(value);
  }

  /** A path `a.b` splits into its two segments. */
  lemma SplitTwo(a: string, b: string)
    requires '.' !in a && '.' !in b
    ensures Split(a + "." + b, '.') == [a, b]
  {
    var path := a + "." + b;
    assert path[..|a|] == a && path[|a|] == '.';
    FindAt(path, '.', |a|);
    assert path[|a| + 1..] == b;
    SplitWithout(b, '.');
  }

  /** `t("a.b", **kwargs)` finishes `TRANSLATIONS["a"]["b"]`. */
  lemma TranslateTwoLevels(translations: TValue, a: string, b: string, kwargs: Kwargs)
    requires '.' !in a && '.' !in b
    ensures Translate(translations, a + "." + b, kwargs)
      == match Index(translations, a)
         case Raised(e) => Raised(e)
         case Success(section) =>
           (match Index(section, b)
            case Raised(e) => Raised(e)
            case Success(value) => Finish(value, kwargs))
  {
    SplitTwo(a, b);
    assert [a, b][1..] == [b] && [b][1..] == [];
    match Index(translations, a)
    case Raised(e) =>
    case Success(section) =>
      assert Walk(translations, [a, b]) == Walk(section, [b]);
      match Index(section, b)
      case Raised(e) =>
      case Success(value) => assert Walk(section, [b]) == Walk(value, []) == Success(value);
  }

  /** `t("a.b")` without keyword arguments is `TRANSLATIONS["a"]["b"]`. */
  lemma TranslateTwoLevelsPlain(translations: TValue, a: string, b: string)
    requires '.' !in a && '.' !in b
    ensures Translate(translations, a + "." + b, [])
      == match Index(translations, a)
         case Raised(e) => Raised(e)
         case Success(section) => Index(section, b)
  {
    TranslateTwoLevels(translations, a, b, []);
  }

  /** A first segment the table does not have raises `KeyError`, whatever follows. */
  lemma MissingSectionRaises(entries: seq<(string, TValue)>, a: string, rest: string, kwargs: Kwargs)
    requires '.' !in a
    requires forall i :: 0 <= i < |entries| ==> entries[i].0 != a
    ensures Translate(Table(entries), a + "." + rest, kwargs) == Raised(KeyError)
  {
    var path := a + "." + rest;
    assert path[..|a|] == a && path[|a|] == '.';
    FindAt(path, '.', |a|);
    assert Split(path, '.')[0] == a;
  }

  /** Without keyword arguments, and for lists and sections, the value found is returned unformatted. */
  lemma NoFormatUnlessPhraseWithKwargs(translations: TValue, keyPath: string, kwargs: Kwargs)
    requires Walk(translations, Split(keyPath, '.')).Success?
    requires kwargs == [] || !Walk(translations, Split(keyPath, '.')).value.Phrase?
    ensures Translate(translations, keyPath, kwargs) == Walk(translations, Split(keyPath, '.'))
  {
  }

  /** Prepending twice is prepending the concatenation. */
  lemma PrependTwice(p: string, q: string, r: Outcome<string>)
    ensures Prepend(p, Prepend(q, r)) == Prepend(p + q, r)
  {
    if r.Success? {
      assert p + (q + r.value) == p + q + r.value;
    }
  }

  /** A text without braces formats to itself. */
  lemma {:induction false} FormatPlain(s: string, kwargs: Kwargs)
    requires '{' !in s && '}' !in s
    ensures Format(s, kwargs) == Success(s)
    decreases |s|
  {
    if s != [] {
      assert '{' !in s[1..] && '}' !in s[1..];
      FormatPlain(s[1..], kwargs);
      assert [s[0]] + s[1..] == s;
    }
  }

  /** Brace-free text in front is copied unchanged. */
  lemma {:induction false} FormatPlainPrefix(before: string, rest: string, kwargs: Kwargs)
    requires '{' !in before && '}' !in before
    ensures Format(before + rest, kwargs) == Prepend(before, Format(rest, kwargs))
    decreases |before|
  {
    if before == [] {
      assert before + rest == rest;
      if Format(rest, kwargs).Success? {
        assert "" + Format(rest, kwargs).value == Format(rest, kwargs).value;
      }
    } else {
      var s := before + rest;
      assert s[0] == before[0] && s[1..] == before[1..] + rest;
      assert Token(s, kwargs) == Success(([before[0]], 1));
      FormatPlainPrefix(before[1..], rest, kwargs);
      PrependTwice([before[0]], before[1..], Format(rest, kwargs));
      assert [before[0]] + before[1..] == before;
    }
  }

  /** A field at the start is replaced, and formatting goes on after it. */
  lemma FormatField(name: string, after: string, kwargs: Kwargs, v: string)
    requires name != "" && '{' !in name && '}' !in name
    requires Lookup(kwargs, name) == Some(v)
    ensures Format("{" + name + "}" + after, kwargs) == Prepend(v, Format(after, kwargs))
  {
    var s := "{" + name + "}" + after;
    assert s[1..] == name + "}" + after;
    assert (name + "}" + after)[..|name|] == name;
    FindAt(s[1..], '}', |name|);
    assert s[1..|name| + 1] == name;
    assert Token(s, kwargs) == Success((v, |name| + 2));
    assert s[|name| + 2..] == after;
  }

  /** A field followed by brace-free text. */
  lemma FormatFieldThenPlain(name: string, after: string, kwargs: Kwargs, v: string)
    requires '{' !in after && '}' !in after
    requires name != "" && '{' !in name && '}' !in name
    requires Lookup(kwargs, name) == Some(v)
    ensures Format("{" + name + "}" + after, kwargs) == Success(v + after)
  {
    FormatPlain(after, kwargs);
    FormatField(name, after, kwargs, v);
  }

  /** Brace-free text, a field, and brace-free text. */
  lemma FormatAround(before: string, name: string, after: string, kwargs: Kwargs, v: string)
    requires '{' !in before && '}' !in before && '{' !in after && '}' !in after
    requires name != "" && '{' !in name && '}' !in name
    requires Lookup(kwargs, name) == Some(v)
    ensures Format(before + ("{" + name + "}" + after), kwargs) == Success(before + (v + after))
  {
    FormatFieldThenPlain(name, after, kwargs, v);
    FormatPlainPrefix(before, "{" + name + "}" + after, kwargs);
  }

  /** A text with one `{name}` field, and no other brace, has the field replaced by the argument. */
  lemma FormatOneField(before: string, name: string, after: string, kwargs: Kwargs, v: string)
    requires '{' !in before && '}' !in before && '{' !in after && '}' !in after
    requires name != "" && '{' !in name && '}' !in name
    requires Lookup(kwargs, name) == Some(v)
    ensures Format(before + "{" + name + "}" + after, kwargs) == Success(before + v + after)
  {
    FormatAround(before, name, after, kwargs, v);
    assert before + "{" + name + "}" + after == before + ("{" + name + "}" + after);
    assert before + v + after == before + (v + after);
  }

  /**
   * `t("a.b", name=v)` on a message with one `{name}` field, such as
   * "new_patient.success" with `patient_id`: the field is replaced by `v`.
   */
  lemma TranslateOneField(translations: TValue, a: string, b: string, section: TValue,
                          before: string, name: string, after: string, v: string)
    requires '.' !in a && '.' !in b
    requires Index(translations, a) == Success(section)
    requires Index(section, b) == Success(Phrase(before + "{" + name + "}" + after))
    requires '{' !in before && '}' !in before && '{' !in after && '}' !in after
    requires name != "" && '{' !in name && '}' !in name
    ensures Translate(translations, a + "." + b, [(name, v)]) == Success(Phrase(before + v + after))
  {
    TranslateTwoLevels(translations, a, b, [(name, v)]);
    FormatOneField(before, name, after, [(name, v)], v);
  }
}
