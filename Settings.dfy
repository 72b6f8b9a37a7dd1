/**
 * The settings of screen_animator: the structural validation of a parsed TOML
 * document, the conversion of colour-like lists into tuples, and the random
 * choice of the background, text and outline colours and of the next message.
 *
 * Random choices are drawn from a caller-supplied stream: a draw `d` picks
 * element `d mod n` of an n-element sequence, so every element is reachable.
 */
module Settings {
  import opened Wrappers

  /** A value as parsed from TOML, or as produced by the conversion (which adds tuples). */
  datatype Value =
    | Int(i: int)
    | Bool(b: bool)
    | Float(r: real)
    | Str(s: string)
    | List(items: seq<Value>)
    | Tuple(items: seq<Value>)
    | Dict(entries: map<string, Value>)

  /** The exceptions the core raises. */
  datatype Error = ValueError | IndexError | TypeError

  datatype Result<T> = Ok(value: T) | Err(error: Error)

  // ---------------------------------------------------------------------------
  // Validation
  // ---------------------------------------------------------------------------

  /** The class patterns of the validator: `int()`, `bool()`, `float()`, `str()`, `list()`. */
  datatype ClassPattern = IntPattern | BoolPattern | FloatPattern | StrPattern | ListPattern

  /** A class pattern matches instances of the class and of its subclasses; `bool` is a subclass of `int`. */
  predicate MatchesClass(v: Value, p: ClassPattern)
  {
    match p
    case IntPattern => v.Int? || v.Bool?
    case BoolPattern => v.Bool?
    case FloatPattern => v.Float?
    case StrPattern => v.Str?
    case ListPattern => v.List?
  }

  /** An or-pattern `p1 | p2 | ...`. */
  predicate MatchesAny(v: Value, alternatives: seq<ClassPattern>)
  {
    exists i :: 0 <= i < |alternatives| && MatchesClass(v, alternatives[i])
  }

  /** What the validator expects under a top-level key: a class pattern, or a mapping pattern of class patterns. */
  datatype Shape = Field(alternatives: seq<ClassPattern>) | Section(fields: map<string, seq<ClassPattern>>)

  /** The fields of the `messages` table. */
  const MessagesFields: map<string, seq<ClassPattern>> := map[
    "messages" := [ListPattern, StrPattern],
    "separator" := [StrPattern],
    "typeface" := [StrPattern],
    "size" := [IntPattern],
    "bold" := [BoolPattern],
    "italic" := [BoolPattern],
    "anti-aliasing" := [BoolPattern],
    "scroll_speed" := [IntPattern],
    "outline_width" := [IntPattern],
    "outline_copies" := [IntPattern],
    "outline_colors" := [ListPattern]]

  /** The fields of the `images` table. */
  const ImagesFields: map<string, seq<ClassPattern>> := map[
    "sources" := [ListPattern, StrPattern],
    "number" := [IntPattern],
    "reposition_attempts" := [IntPattern]]

  /** The fields of the `timings` table. */
  const TimingsFields: map<string, seq<ClassPattern>> := map[
    "fps" := [IntPattern, FloatPattern],
    "image_change_time" := [IntPattern, FloatPattern],
    "color_change_time" := [IntPattern, FloatPattern]]

  /** The mapping pattern of `_validate_settings`, key by key. */
  const Schema: map<string, Shape> := map[
    "colors" := Field([ListPattern]),
    "messages" := Section(MessagesFields),
    "images" := Section(ImagesFields),
    "timings" := Section(TimingsFields)]

  /** A mapping pattern matches a dictionary holding at least the listed keys, each with a matching value. */
  predicate MatchesShape(v: Value, shape: Shape)
  {
    match shape
    case Field(alternatives) => MatchesAny(v, alternatives)
    case Section(fields) =>
      v.Dict? && forall k :: k in fields ==> k in v.entries && MatchesAny(v.entries[k], fields[k])
  }

  /** The settings document matches the validator's pattern; keys it does not list are ignored. */
  predicate Conforms(v: Value)
  {
    v.Dict? && forall k :: k in Schema ==> k in v.entries && MatchesShape(v.entries[k], Schema[k])
  }

  /** `_validate_settings`: pass on a conforming document, raise `ValueError` on any other. */
  function ValidateSettings(v: Value): (r: Result<()>)
    ensures r.Err? ==> r.error == ValueError
    ensures r.Ok? ==> v.Dict? && "colors" in v.entries && v.entries["colors"].List?
    ensures r.Ok? ==> "messages" in v.entries && v.entries["messages"].Dict?
  {
    if Conforms(v) then
      assert MatchesShape(v.entries["colors"], Schema["colors"]);
      assert MatchesShape(v.entries["messages"], Schema["messages"]);
      Ok(())
    else Err(ValueError)
  }

  // ---------------------------------------------------------------------------
  // Conversion of colour lists to tuples
  // ---------------------------------------------------------------------------

  /** Matches `int()`: an integer or a boolean. */
  predicate IntLike(v: Value)
  {
    v.Int? || v.Bool?
  }

  /** The sequence patterns `[int(), int(), int()] | [str(), int()]`: an RGB triple or a (source, width) pair. */
  predicate IsColour(items: seq<Value>)
  {
    (|items| == 3 && IntLike(items[0]) && IntLike(items[1]) && IntLike(items[2]))
    || (|items| == 2 && items[0].Str? && IntLike(items[1]))
  }

  /**
   * `_convert_colors_to_tuples`: a colour-shaped list becomes a tuple of the
   * same elements, other lists and dictionaries are converted element by
   * element, and everything else (tuples included) is returned as it is.
   */
  function Convert(v: Value): (r: Value)
    ensures v.List? && IsColour(v.items) ==> r == Tuple(v.items)
    ensures v.List? && !IsColour(v.items) ==> r.List? && |r.items| == |v.items|
    ensures v.Dict? <==> r.Dict?
    ensures v.Dict? ==> r.entries.Keys == v.entries.Keys
    ensures !v.List? && !v.Dict? ==> r == v
  {
    match v
    case List(items) =>
      if IsColour(items) then Tuple(items)
      else List(seq(|items|, i requires 0 <= i < |items| => Convert(items[i])))
    case Dict(entries) => Dict(map k | k in entries :: Convert(entries[k]))
    case _ => v
  }

  /** No colour-shaped list is reachable through lists and dictionaries: what the conversion leaves behind. */
  predicate Plain(v: Value)
  {
    match v
    case List(items) => !IsColour(items) && forall i :: 0 <= i < |items| ==> Plain(items[i])
    case Dict(entries) => forall k :: k in entries ==> Plain(entries[k])
    case _ => true
  }

  /** Converting the elements of a list keeps it colour-shaped or not: integers and strings are left alone. */
  lemma ConvertKeepsColourShape(items: seq<Value>)
    ensures IsColour(seq(|items|, i requires 0 <= i < |items| => Convert(items[i]))) <==> IsColour(items)
  {
    var converted := seq(|items|, i requires 0 <= i < |items| => Convert(items[i]));
    forall i | 0 <= i < |items|
      ensures IntLike(converted[i]) <==> IntLike(items[i])
      ensures converted[i].Str? <==> items[i].Str?
    {
    }
  }

  /** The conversion leaves no colour-shaped list behind. */
  lemma {:induction false} ConvertIsPlain(v: Value)
    ensures Plain(Convert(v))
  {
    match v
    case List(items) =>
      if !IsColour(items) {
        ConvertKeepsColourShape(items);
        forall i | 0 <= i < |items|
          ensures Plain(Convert(items[i]))
        {
          ConvertIsPlain(items[i]);
        }
      }
    case Dict(entries) =>
      forall k | k in entries
        ensures Plain(Convert(entries[k]))
      {
        ConvertIsPlain(entries[k]);
      }
    case _ =>
  }

  /** The conversion changes a value exactly when some colour-shaped list is reachable in it. */
  lemma {:induction false} ConvertFixesPlain(v: Value)
    ensures Convert(v) == v <==> Plain(v)
  {
    match v
    case List(items) =>
      if !IsColour(items) {
        var converted := seq(|items|, i requires 0 <= i < |items| => Convert(items[i]));
        forall i | 0 <= i < |items|
          ensures Convert(items[i]) == items[i] <==> Plain(items[i])
        {
          ConvertFixesPlain(items[i]);
        }
        if Plain(v) {
          assert converted == items;
        } else {
          var j :| 0 <= j < |items| && !Plain(items[j]);
          assert converted[j] != items[j];
        }
      }
    case Dict(entries) =>
      var converted := map k | k in entries :: Convert(entries[k]);
      forall k | k in entries
        ensures Convert(entries[k]) == entries[k] <==> Plain(entries[k])
      {
        ConvertFixesPlain(entries[k]);
      }
      if Plain(v) {
        assert converted == entries;
      } else {
        var j :| j in entries && !Plain(entries[j]);
        assert converted[j] != entries[j];
      }
    case _ =>
  }

  /** Converting twice is converting once. */
  lemma ConvertIdempotent(v: Value)
    ensures Convert(Convert(v)) == Convert(v)
  {
    ConvertIsPlain(v);
    ConvertFixesPlain(Convert(v));
  }

  /** A document without one of the listed top-level keys is rejected, whatever else it holds. */
  lemma MissingKeyRejected(v: Value, key: string)
    requires v.Dict? && key in Schema && key !in v.entries
    ensures ValidateSettings(v) == Err(ValueError)
  {
  }

  /** A section without one of its listed fields is rejected too. */
  lemma MissingFieldRejected(v: Value, section: string, field: string)
    requires v.Dict? && section in Schema && Schema[section].Section? && field in Schema[section].fields
    requires section in v.entries && v.entries[section].Dict? && field !in v.entries[section].entries
    ensures ValidateSettings(v) == Err(ValueError)
  {
    assert !MatchesShape(v.entries[section], Schema[section]);
  }

  /** Keys the pattern does not list are ignored: adding one to a conforming document keeps it conforming. */
  lemma ExtraKeyAccepted(v: Value, key: string, x: Value)
    requires Conforms(v) && key !in Schema
    ensures ValidateSettings(Dict(v.entries[key := x])) == Ok(())
  {
    var w := Dict(v.entries[key := x]);
    forall k | k in Schema
      ensures k in w.entries && MatchesShape(w.entries[k], Schema[k])
    {
      assert w.entries[k] == v.entries[k];
    }
  }

  /**
   * Replacing one field of a conforming document keeps it valid exactly when
   * the new value is an instance of one of the classes the pattern lists for
   * that field.
   */
  lemma FieldReplaced(v: Value, section: string, field: string, x: Value)
    requires Conforms(v) && section in Schema && Schema[section].Section? && field in Schema[section].fields
    ensures var table := v.entries[section].entries;
      (ValidateSettings(Dict(v.entries[section := Dict(table[field := x])])).Ok? <==> MatchesAny(x, Schema[section].fields[field]))
  {
    var fields := Schema[section].fields;
    var w := Dict(v.entries[section := Dict(v.entries[section].entries[field := x])]);
    assert MatchesShape(v.entries[section], Schema[section]);
    if MatchesAny(x, fields[field]) {
      forall k | k in Schema
        ensures k in w.entries && MatchesShape(w.entries[k], Schema[k])
      {
        if k != section {
          assert w.entries[k] == v.entries[k];
        }
      }
    } else {
      assert !MatchesShape(w.entries[section], Schema[section]);
    }
  }

  /** `int()` in a class pattern accepts `True` and `False`, since `bool` is a subclass of `int`: a boolean text size is valid. */
  lemma BoolCountsAsInt(v: Value, b: bool)
    requires Conforms(v)
    ensures ValidateSettings(Dict(v.entries["messages" := Dict(v.entries["messages"].entries["size" := Bool(b)])])) == Ok(())
  {
    assert MatchesClass(Bool(b), MessagesFields["size"][0]);
    FieldReplaced(v, "messages", "size", Bool(b));
  }

  /** A frame rate given as a string matches neither `int()` nor `float()`, so the document is rejected. */
  lemma WrongClassRejected(v: Value, text: string)
    requires Conforms(v)
    ensures ValidateSettings(Dict(v.entries["timings" := Dict(v.entries["timings"].entries["fps" := Str(text)])])) == Err(ValueError)
  {
    var alternatives := TimingsFields["fps"];
    assert alternatives == [IntPattern, FloatPattern];
    assert !MatchesAny(Str(text), alternatives);
    FieldReplaced(v, "timings", "fps", Str(text));
  }

  /** The colour list of a conforming document. */
  lemma ConformingColours(v: Value)
    requires Conforms(v)
    ensures "colors" in v.entries && v.entries["colors"].List?
  {
    assert MatchesShape(v.entries["colors"], Field([ListPattern]));
  }

  /** A table matching a section holds each listed field with a matching value. */
  lemma SectionField(v: Value, fields: map<string, seq<ClassPattern>>, key: string)
    requires MatchesShape(v, Section(fields)) && key in fields
    ensures v.Dict? && key in v.entries && MatchesAny(v.entries[key], fields[key])
  {
  }

  /** The messages table of a conforming document matches its section. */
  lemma ConformingMessagesTable(v: Value)
    requires Conforms(v)
    ensures "messages" in v.entries && MatchesShape(v.entries["messages"], Section(MessagesFields))
  {
    assert Schema["messages"] == Section(MessagesFields);
  }

  /** The fields of the `messages` table that the colour and message choices read. */
  lemma ConformingMessages(v: Value)
    requires Conforms(v)
    ensures "messages" in v.entries && v.entries["messages"].Dict?
    ensures "messages" in v.entries["messages"].entries
    ensures v.entries["messages"].entries["messages"].List? || v.entries["messages"].entries["messages"].Str?
    ensures "separator" in v.entries["messages"].entries && v.entries["messages"].entries["separator"].Str?
    ensures "outline_colors" in v.entries["messages"].entries && v.entries["messages"].entries["outline_colors"].List?
  {
    ConformingMessagesTable(v);
    var table := v.entries["messages"];
    assert MessagesFields["outline_colors"] == [ListPattern];
    assert MessagesFields["separator"] == [StrPattern];
    assert MessagesFields["messages"] == [ListPattern, StrPattern];
    SectionField(table, MessagesFields, "messages");
    SectionField(table, MessagesFields, "separator");
    SectionField(table, MessagesFields, "outline_colors");
  }

  /** Converting a dictionary converts the value under each key. */
  lemma ConvertEntry(entries: map<string, Value>, key: string)
    requires key in entries
    ensures key in Convert(Dict(entries)).entries
    ensures Convert(Dict(entries)).entries[key] == Convert(entries[key])
  {
  }

  /** Converting a list that is not colour-shaped converts each element in place, keeping the order. */
  lemma ConvertItem(items: seq<Value>, i: nat)
    requires !IsColour(items) && i < |items|
    ensures Convert(List(items)).List? && |Convert(List(items)).items| == |items|
    ensures Convert(List(items)).items[i] == Convert(items[i])
  {
  }

  /** A document that passes validation and is then converted is one `set_colors` can work on. */
  lemma ConvertedColoursReady(v: Value)
    requires Conforms(v)
    ensures Convert(v).Dict? && ColoursReady(Convert(v).entries)
  {
    ConformingColours(v);
    ConformingMessages(v);
    var messages := v.entries["messages"];
    ConvertEntry(v.entries, "colors");
    ConvertEntry(v.entries, "messages");
    ConvertEntry(messages.entries, "outline_colors");
  }

  /** A document that passes validation and is then converted is one `generate_message_text` can work on. */
  lemma ConvertedMessagesReady(v: Value)
    requires Conforms(v)
    ensures Convert(v).Dict? && MessagesReady(Convert(v).entries)
  {
    ConformingMessages(v);
    var messages := v.entries["messages"];
    ConvertEntry(v.entries, "messages");
    ConvertEntry(messages.entries, "messages");
    ConvertEntry(messages.entries, "separator");
  }

  /** An RGB triple as TOML gives it. */
  function Rgb(red: int, green: int, blue: int): Value
  {
    List([Int(red), Int(green), Int(blue)])
  }

  /** The `messages` table of the example settings of the tests. */
  const ExampleMessages: map<string, Value> := map[
    "messages" := List([Str("TEST MESSAGE 1!"), Str("TEST MESSAGE 2!"), Str("TEST MESSAGE 3!"), Str("TEST MESSAGE 4!")]),
    "separator" := Str("    "),
    "typeface" := Str("freeserif"),
    "size" := Int(350),
    "bold" := Bool(true),
    "italic" := Bool(false),
    "anti-aliasing" := Bool(false),
    "scroll_speed" := Int(240),
    "outline_width" := Int(3),
    "outline_copies" := Int(12),
    "outline_colors" := List([Rgb(0, 0, 0), Rgb(255, 255, 255)])]

  /** The `images` table of the example settings of the tests. */
  const ExampleImages: map<string, Value> := map[
    "sources" := List([List([Str("pic1.svg"), Int(64)]), List([Str("pic2.bmp"), Int(-1)]), List([Str("pic3.bmp"), Int(64)])]),
    "number" := Int(10),
    "reposition_attempts" := Int(-1)]

  /** The `timings` table of the example settings of the tests. */
  const ExampleTimings: map<string, Value> := map[
    "fps" := Int(30),
    "image_change_time" := Int(2),
    "color_change_time" := Int(15)]

  /** The example settings of the tests, as read from TOML. */
  const ExampleSettings: Value := Dict(map[
    "colors" := List([Rgb(255, 0, 0), Rgb(0, 255, 0), Rgb(0, 0, 255)]),
    "messages" := Dict(ExampleMessages),
    "images" := Dict(ExampleImages),
    "timings" := Dict(ExampleTimings)])

  /** A table whose every listed field matches the first of its alternatives matches its section. */
  lemma FirstAlternatives(entries: map<string, Value>, fields: map<string, seq<ClassPattern>>)
    requires forall k :: k in fields ==> k in entries && fields[k] != [] && MatchesClass(entries[k], fields[k][0])
    ensures MatchesShape(Dict(entries), Section(fields))
  {
    forall k | k in fields
      ensures MatchesAny(entries[k], fields[k])
    {
      assert MatchesClass(entries[k], fields[k][0]);
    }
  }

  /** A document conforms when each of the four top-level entries matches its pattern. */
  lemma ConformsBySections(v: Value)
    requires v.Dict?
    requires "colors" in v.entries && MatchesShape(v.entries["colors"], Field([ListPattern]))
    requires "messages" in v.entries && MatchesShape(v.entries["messages"], Section(MessagesFields))
    requires "images" in v.entries && MatchesShape(v.entries["images"], Section(ImagesFields))
    requires "timings" in v.entries && MatchesShape(v.entries["timings"], Section(TimingsFields))
    ensures Conforms(v)
  {
  }

  /** The example `messages` table matches its section of the pattern. */
  lemma ExampleMessagesMatch()
    ensures MatchesShape(Dict(ExampleMessages), Section(MessagesFields))
  {
    FirstAlternatives(ExampleMessages, MessagesFields);
  }

  /** The example `images` table matches its section of the pattern. */
  lemma ExampleImagesMatch()
    ensures MatchesShape(Dict(ExampleImages), Section(ImagesFields))
  {
    FirstAlternatives(ExampleImages, ImagesFields);
  }

  /** The example `timings` table matches its section of the pattern. */
  lemma ExampleTimingsMatch()
    ensures MatchesShape(Dict(ExampleTimings), Section(TimingsFields))
  {
    FirstAlternatives(ExampleTimings, TimingsFields);
  }

  /** The example settings pass validation. */
  lemma ExampleAccepted()
    ensures ValidateSettings(ExampleSettings) == Ok(())
  {
    ExampleMessagesMatch();
    ExampleImagesMatch();
    ExampleTimingsMatch();
    var alternatives := [ListPattern];
    assert MatchesClass(ExampleSettings.entries["colors"], alternatives[0]);
    ConformsBySections(ExampleSettings);
  }

  /**
   * The example settings with the top-level key spelt "colours", as the
   * importer's test fixture spells it: the validator asks for "colors", so it
   * rejects them whatever the other tables hold.
   */
  const BritishSettings: Value := Dict(map[
    "colours" := List([Rgb(255, 0, 0), Rgb(0, 255, 0), Rgb(0, 0, 255)]),
    "messages" := Dict(ExampleMessages),
    "images" := Dict(ExampleImages),
    "timings" := Dict(ExampleTimings)])

  lemma BritishSettingsRejected()
    ensures ValidateSettings(BritishSettings) == Err(ValueError)
  {
    assert "colors" !in BritishSettings.entries;
    MissingKeyRejected(BritishSettings, "colors");
  }

  /** An RGB triple after the conversion. */
  function RgbTuple(red: int, green: int, blue: int): Value
  {
    Tuple([Int(red), Int(green), Int(blue)])
  }

  /** A list of colour-shaped lists, itself not colour-shaped, becomes the list of the corresponding tuples. */
  lemma ConvertColourList(items: seq<Value>)
    requires !IsColour(items)
    requires forall i :: 0 <= i < |items| ==> items[i].List? && IsColour(items[i].items)
    ensures Convert(List(items)) == List(seq(|items|, i requires 0 <= i < |items| => Tuple(items[i].items)))
  {
  }

  /** The example colours and outline colours become lists of RGB tuples. */
  lemma ExampleColoursConverted()
    ensures Convert(ExampleSettings.entries["colors"]) == List([RgbTuple(255, 0, 0), RgbTuple(0, 255, 0), RgbTuple(0, 0, 255)])
    ensures Convert(ExampleMessages["outline_colors"]) == List([RgbTuple(0, 0, 0), RgbTuple(255, 255, 255)])
  {
    ConvertColourList([Rgb(255, 0, 0), Rgb(0, 255, 0), Rgb(0, 0, 255)]);
    ConvertColourList([Rgb(0, 0, 0), Rgb(255, 255, 255)]);
  }

  /** The example image sources become (path, width) tuples. */
  lemma ExampleSourcesConverted()
    ensures Convert(ExampleImages["sources"])
         == List([Tuple([Str("pic1.svg"), Int(64)]), Tuple([Str("pic2.bmp"), Int(-1)]), Tuple([Str("pic3.bmp"), Int(64)])])
  {
    ConvertColourList([List([Str("pic1.svg"), Int(64)]), List([Str("pic2.bmp"), Int(-1)]), List([Str("pic3.bmp"), Int(64)])]);
  }

  /** The example message list has no colour-shaped list, so the conversion keeps it. */
  lemma ExampleMessagesKept()
    ensures Convert(ExampleMessages["messages"]) == ExampleMessages["messages"]
  {
    var messages := ExampleMessages["messages"];
    assert Plain(messages) by {
      forall i | 0 <= i < |messages.items|
        ensures Plain(messages.items[i])
      {
      }
    }
    ConvertFixesPlain(messages);
  }

  /** `import_settings` after the file is read: validate, then convert. */
  class SettingsImporter {
    /** `_settings`: unset until a document has been read. */
    var settings: Option<Value>

    constructor ()
      ensures settings == None
    {
      settings := None;
    }

    /**
     * Import a parsed document: it is stored, validated, and on success
     * replaced by its conversion, which is returned.
     */
    method ImportSettings(parsed: Value) returns (r: Result<Value>)
      modifies this
      ensures r.Ok? <==> Conforms(parsed)
      ensures r.Ok? ==> r.value == Convert(parsed) && settings == Some(Convert(parsed))
      ensures r.Err? ==> r.error == ValueError && settings == Some(parsed)
    {
      settings := Some(parsed);
      var validated := ValidateSettings(parsed);
      if validated.Err? {
        return Err(ValueError);
      }
      settings := Some(Convert(parsed));
      r := Ok(Convert(parsed));
    }
  }

  // ---------------------------------------------------------------------------
  // Colour and message selection
  // ---------------------------------------------------------------------------

  /** `random.choice` with draw d on a non-empty sequence. */
  function Choice(s: seq<Value>, d: nat): (c: Value)
    requires s != []
    ensures c in s
  {
    s[d % |s|]
  }

  /** A value `random.choice` can pick from: a list, a tuple or a string. */
  predicate IsSequence(v: Value)
  {
    v.List? || v.Tuple? || v.Str?
  }

  /**
   * The elements `random.choice` picks from, one per index: those of a list or
   * tuple, the one-character strings of a string.
   */
  function Pool(v: Value): (pool: seq<Value>)
    requires IsSequence(v)
    ensures (v.List? || v.Tuple?) ==> |pool| == |v.items| && forall x :: x in pool <==> x in v.items
    ensures v.Str? ==> |pool| == |v.s|
    ensures v.Str? ==> forall x :: x in pool <==> x.Str? && |x.s| == 1 && x.s[0] in v.s
  {
    match v
    case List(items) => items
    case Tuple(items) => items
    case Str(s) =>
      var pool := seq(|s|, i requires 0 <= i < |s| => Str([s[i]]));
      assert forall x: Value :: x.Str? && |x.s| == 1 && x.s[0] in s ==> x in pool by {
        forall x: Value | x.Str? && |x.s| == 1 && x.s[0] in s
          ensures x in pool
        {
          var i :| 0 <= i < |s| && s[i] == x.s[0];
          assert x.s == [s[i]];
          assert pool[i] == x;
        }
      }
      pool
  }

  /**
   * Python's `==` on values: numbers (booleans included) by their value, a
   * string with an equal string, a list with a list and a tuple with a tuple
   * element by element, a dictionary with one of the same keys and equal values.
   */
  predicate PyEq(a: Value, b: Value)
  {
    match a
    case Int(_) => IsNumber(b) && NumberOf(a) == NumberOf(b)
    case Bool(_) => IsNumber(b) && NumberOf(a) == NumberOf(b)
    case Float(_) => IsNumber(b) && NumberOf(a) == NumberOf(b)
    case Str(s) => b.Str? && b.s == s
    case List(xs) => b.List? && |xs| == |b.items| && forall i :: 0 <= i < |xs| ==> PyEq(xs[i], b.items[i])
    case Tuple(xs) => b.Tuple? && |xs| == |b.items| && forall i :: 0 <= i < |xs| ==> PyEq(xs[i], b.items[i])
    case Dict(m) => b.Dict? && m.Keys == b.entries.Keys && forall k :: k in m ==> PyEq(m[k], b.entries[k])
  }

  /** An integer, a boolean or a float. */
  predicate IsNumber(v: Value)
  {
    v.Int? || v.Bool? || v.Float?
  }

  /** The numeric value of a number; `True` is 1 and `False` is 0. */
  function NumberOf(v: Value): real
    requires IsNumber(v)
  {
    match v
    case Int(i) => i as real
    case Bool(b) => if b then 1.0 else 0.0
    case Float(r) => r
  }

  /**
   * The text-colour loop on a stream of draws: the first drawn colour that
   * differs from the background under Python's `==`, or None when every draw
   * gives a colour equal to the background.
   */
  function Retry(colours: seq<Value>, bg: Value, draws: seq<nat>): Option<Value>
    requires colours != []
    decreases |draws|
  {
    if draws == [] then None
    else if !PyEq(Choice(colours, draws[0]), bg) then Some(Choice(colours, draws[0]))
    else Retry(colours, bg, draws[1..])
  }

  /** `(int(), int(), int())`: a list or tuple of three integers, used as one outline colour. */
  predicate IsRgb(v: Value)
  {
    (v.List? || v.Tuple?) && |v.items| == 3 && IntLike(v.items[0]) && IntLike(v.items[1]) && IntLike(v.items[2])
  }

  /** What `set_colors` relies on, all guaranteed by a validated and converted document. */
  predicate ColoursReady(settings: map<string, Value>)
  {
    && "colors" in settings && (settings["colors"].List? || settings["colors"].Tuple?)
    && "messages" in settings && settings["messages"].Dict?
    && "outline_colors" in settings["messages"].entries
    && (settings["messages"].entries["outline_colors"].List? || settings["messages"].entries["outline_colors"].Tuple?)
  }

  /** What `generate_message_text` relies on, all guaranteed by a validated and converted document. */
  predicate MessagesReady(settings: map<string, Value>)
  {
    && "messages" in settings && settings["messages"].Dict?
    && "messages" in settings["messages"].entries && IsSequence(settings["messages"].entries["messages"])
    && "separator" in settings["messages"].entries && settings["messages"].entries["separator"].Str?
  }

  /** How a set_colors run ended; `Unsettled` is a run whose draws all repeat the background, so the loop is still going. */
  datatype Status = Done | Failed(error: Error) | Unsettled

  /** The background table after `set_colors` created it if missing. */
  function BgEntries(settings: map<string, Value>): map<string, Value>
    requires "bg" in settings ==> settings["bg"].Dict?
  {
    if "bg" in settings then settings["bg"].entries else map[]
  }

  /** The text of a chosen message: a string as it is, any other value as `format` renders it. */
  function Text(v: Value, format: Value -> string): string
  {
    if v.Str? then v.s else format(v)
  }

  /**
   * The text-colour loop of `set_colors`: draw a colour, and draw again while
   * it equals the background; None when the draws run out first.
   */
  method DrawTextColour(colours: seq<Value>, bg: Value, draws: seq<nat>) returns (text: Option<Value>)
    requires colours != []
    ensures text == Retry(colours, bg, draws)
  {
    if draws == [] {
      return None;
    }
    var colour := Choice(colours, draws[0]);
    var k := 1;
    while PyEq(colour, bg) && k < |draws|
      invariant 1 <= k <= |draws|
      invariant colour == Choice(colours, draws[k - 1])
      invariant Retry(colours, bg, draws) == Retry(colours, bg, draws[k - 1..])
    {
      assert draws[k - 1..][1..] == draws[k..];
      colour := Choice(colours, draws[k]);
      k := k + 1;
    }
    if PyEq(colour, bg) {
      assert draws[k - 1..][1..] == [];
      return None;
    }
    text := Some(colour);
  }

  /**
   * The outcome of `set_colors` on the settings `prior` and the settings it
   * leaves: each step is done in turn until one raises. The colour is drawn
   * before "bg" is indexed, so an empty colour list raises `IndexError` even
   * when "bg" is not a table.
   */
  function ColoursSet(prior: map<string, Value>, bgDraw: nat, textDraws: seq<nat>, outlineDraw: nat): (Status, map<string, Value>)
    requires ColoursReady(prior)
  {
    var colours := prior["colors"].items;
    if colours == [] then (Failed(IndexError), if "bg" in prior then prior else prior["bg" := Dict(map[])])
    else if "bg" in prior && !prior["bg"].Dict? then (Failed(TypeError), prior)
    else
        var bgTable := BgEntries(prior);
        var bg := Choice(colours, bgDraw);
        var withBg := prior["bg" := Dict(bgTable["color" := bg])];
        match Retry(colours, bg, textDraws)
        case None => (Unsettled, withBg)
        case Some(text) =>
          var messages := prior["messages"].entries["color" := text];
          var outlines := messages["outline_colors"];
          if IsRgb(outlines) then (Done, withBg["messages" := Dict(messages["outline_color" := outlines])])
          else if outlines.items == [] then (Failed(IndexError), withBg["messages" := Dict(messages)])
          else (Done, withBg["messages" := Dict(messages["outline_color" := Choice(outlines.items, outlineDraw)])])
  }

  class SettingsManager {
    /** The settings dictionary; the nested tables are values replaced as a whole. */
    var settings: map<string, Value>
    /** How the `set_colors` call made on construction ended: anything but `Done` is a constructor that raised or never returned. */
    var setup: Status

    /** Hold the imported settings, then set the colours as `_setup_settings` does first. */
    constructor (imported: map<string, Value>, bgDraw: nat, textDraws: seq<nat>, outlineDraw: nat)
      requires ColoursReady(imported)
      ensures (setup, settings) == ColoursSet(imported, bgDraw, textDraws, outlineDraw)
    {
      settings := imported;
      setup := Done;
      new;
      setup := SetColors(bgDraw, textDraws, outlineDraw);
    }

    /**
     * `set_colors`: create the background table if missing and pick its colour,
     * pick a text colour until it differs from the background, and take the
     * outline colour as the one RGB triple given or pick it from those given.
     * An empty colour list raises `IndexError` once "bg" exists; a `bg` entry
     * that is not a table then raises `TypeError`; an empty outline list raises
     * `IndexError` after the text colour was set.
     */
    method SetColors(bgDraw: nat, textDraws: seq<nat>, outlineDraw: nat) returns (r: Status)
      requires ColoursReady(settings)
      modifies this`settings
      ensures (r, settings) == ColoursSet(old(settings), bgDraw, textDraws, outlineDraw)
    {
      if "bg" !in settings {
        settings := settings["bg" := Dict(map[])];
      }
      var colours := settings["colors"].items;
      if colours == [] {
        return Failed(IndexError);
      }
      if !settings["bg"].Dict? {
        return Failed(TypeError);
      }
      var bgTable := settings["bg"].entries;
      var bg := Choice(colours, bgDraw);
      settings := settings["bg" := Dict(bgTable["color" := bg])];
      assert settings == old(settings)["bg" := Dict(bgTable["color" := bg])];
      assert colours == old(settings)["colors"].items;

      var drawn := DrawTextColour(colours, bg, textDraws);
      if drawn.None? {
        return Unsettled;
      }
      var text := drawn.value;
      var messages := settings["messages"].entries;
      messages := messages["color" := text];
      var outlines := messages["outline_colors"];
      if !IsRgb(outlines) && outlines.items == [] {
        settings := settings["messages" := Dict(messages)];
        return Failed(IndexError);
      }
      var outline := if IsRgb(outlines) then outlines else Choice(outlines.items, outlineDraw);
      settings := settings["messages" := Dict(messages["outline_color" := outline])];
      r := Done;
    }

    /**
     * `generate_message_text`: one message of the pool followed by the
     * separator; an empty pool raises `IndexError`.
     */
    function GenerateMessageText(draw: nat, format: Value -> string): (r: Result<string>)
      reads this
      requires MessagesReady(settings)
      ensures r.Err? <==> Pool(settings["messages"].entries["messages"]) == []
      ensures r.Err? ==> r.error == IndexError
      ensures r.Ok? ==>
        var pool := Pool(settings["messages"].entries["messages"]);
        exists i :: 0 <= i < |pool| && r.value == Text(pool[i], format) + settings["messages"].entries["separator"].s
    {
      var messages := settings["messages"].entries;
      var pool := Pool(messages["messages"]);
      if pool == [] then Err(IndexError)
      else
        var i := draw % |pool|;
        assert Choice(pool, draw) == pool[i];
        Ok(Text(pool[i], format) + messages["separator"].s)
    }
  }

  /**
   * Two colours and one outline triple: on construction the background takes
   * the first colour, the text colour is redrawn until it is the second, and
   * the triple is the outline.
   */
  method TwoColours()
  {
    var red, green := RgbTuple(255, 0, 0), RgbTuple(0, 255, 0);
    var black := RgbTuple(0, 0, 0);
    var draws: seq<nat> := [0, 2, 1];
    assert Retry([red, green], red, draws) == Some(green) by {
      PyEqReflexive(red);
      assert !PyEq(green, red) by {
        assert NumberOf(green.items[0]) != NumberOf(red.items[0]);
      }
      assert Choice([red, green], draws[0]) == red;
      assert draws[1..][1..] == [1];
      assert Choice([red, green], 2) == red;
      assert Choice([red, green], 1) == green;
    }
    var manager := new SettingsManager(map["colors" := List([red, green]), "messages" := Dict(map["outline_colors" := black])], 0, draws, 7);
    assert manager.setup == Done;
    assert manager.settings["bg"] == Dict(map["color" := red]);
    assert manager.settings["messages"].entries["color"] == green;
    assert manager.settings["messages"].entries["outline_color"] == black;
  }

  /**
   * When `set_colors` finishes, the background colour is one of the colours,
   * the text colour is another colour not equal to it under Python's `==`, and the outline
   * colour is the single RGB triple given or one of the outline colours.
   */
  lemma ColoursChosen(prior: map<string, Value>, bgDraw: nat, textDraws: seq<nat>, outlineDraw: nat)
    requires ColoursReady(prior)
    ensures var (status, after) := ColoursSet(prior, bgDraw, textDraws, outlineDraw);
      var colours := prior["colors"].items;
      colours != [] && ("bg" !in prior || prior["bg"].Dict?) ==>
        && "bg" in after && after["bg"].Dict?
        && "color" in after["bg"].entries && after["bg"].entries["color"] in colours
    ensures var (status, after) := ColoursSet(prior, bgDraw, textDraws, outlineDraw);
      status == Done ==>
        var colours, bgTable, messages := prior["colors"].items, after["bg"].entries, after["messages"].entries;
        var outlines := prior["messages"].entries["outline_colors"];
        && "color" in bgTable && bgTable["color"] in colours
        && "color" in messages && messages["color"] in colours && !PyEq(messages["color"], bgTable["color"])
        && "outline_color" in messages
        && (IsRgb(outlines) ==> messages["outline_color"] == outlines)
        && (!IsRgb(outlines) ==> messages["outline_color"] in outlines.items)
  {
    if prior["colors"].items != [] && !("bg" in prior && !prior["bg"].Dict?) {
      var colours := prior["colors"].items;
      RetryDiffers(colours, Choice(colours, bgDraw), textDraws);
    }
  }

  /**
   * How `set_colors` ends: `IndexError` exactly when there is no colour or, once
   * the text colour is set, no outline colour to choose from; `TypeError`
   * exactly when there are colours and "bg" is not a table; no end exactly
   * when every drawn colour equals the background.
   */
  lemma ColoursSetOutcome(prior: map<string, Value>, bgDraw: nat, textDraws: seq<nat>, outlineDraw: nat)
    requires ColoursReady(prior)
    ensures var status := ColoursSet(prior, bgDraw, textDraws, outlineDraw).0;
      var bgIsTable := "bg" !in prior || prior["bg"].Dict?;
      var colours := prior["colors"].items;
      var outlines := prior["messages"].entries["outline_colors"];
      && (status == Failed(TypeError) <==> colours != [] && !bgIsTable)
      && (status == Failed(IndexError) <==>
            colours == [] || (bgIsTable && Retry(colours, Choice(colours, bgDraw), textDraws).Some? && !IsRgb(outlines) && outlines.items == []))
      && (status == Unsettled <==> bgIsTable && colours != [] && Retry(colours, Choice(colours, bgDraw), textDraws) == None)
  {
  }

  /**
   * `set_colors` touches nothing but the "bg" table, which it creates when it
   * is missing and leaves alone when it is not a table, and the colour entries
   * of the two tables: every other entry of the settings, of "bg" and of
   * "messages" is kept.
   */
  lemma ColoursSetKeepsOthers(prior: map<string, Value>, bgDraw: nat, textDraws: seq<nat>, outlineDraw: nat)
    requires ColoursReady(prior)
    ensures var (status, after) := ColoursSet(prior, bgDraw, textDraws, outlineDraw);
      && (forall k :: k != "bg" && k != "messages" ==> (k in after <==> k in prior))
      && (forall k :: k in after && k != "bg" && k != "messages" ==> after[k] == prior[k])
      && "bg" in after
      && ("bg" in prior && !prior["bg"].Dict? ==> after["bg"] == prior["bg"])
      && ("bg" !in prior || prior["bg"].Dict? ==>
            && after["bg"].Dict?
            && (forall k :: k in BgEntries(prior) && k != "color" ==> k in after["bg"].entries && after["bg"].entries[k] == BgEntries(prior)[k]))
      && "messages" in after && after["messages"].Dict?
      && (forall k :: k in prior["messages"].entries && k != "color" && k != "outline_color" ==>
            k in after["messages"].entries && after["messages"].entries[k] == prior["messages"].entries[k])
  {
  }

  /** Each message of the pool is the one generated by some draw; a string pool yields its characters. */
  lemma EveryMessageReachable(manager: SettingsManager, i: nat, format: Value -> string)
    requires MessagesReady(manager.settings)
    requires i < |Pool(manager.settings["messages"].entries["messages"])|
    ensures manager.GenerateMessageText(i, format)
         == Ok(Text(Pool(manager.settings["messages"].entries["messages"])[i], format)
               + manager.settings["messages"].entries["separator"].s)
  {
    var pool := Pool(manager.settings["messages"].entries["messages"]);
    assert i % |pool| == i;
  }

  /** Python's `==` is reflexive on every value the settings can hold. */
  lemma {:induction false} PyEqReflexive(v: Value)
    ensures PyEq(v, v)
  {
    match v
    case List(xs) =>
      forall i | 0 <= i < |xs|
        ensures PyEq(xs[i], xs[i])
      {
        PyEqReflexive(xs[i]);
      }
    case Tuple(xs) =>
      forall i | 0 <= i < |xs|
        ensures PyEq(xs[i], xs[i])
      {
        PyEqReflexive(xs[i]);
      }
    case Dict(m) =>
      forall k | k in m
        ensures PyEq(m[k], m[k])
      {
        PyEqReflexive(m[k]);
      }
    case _ =>
  }

  /** A drawn text colour is a colour of the list and is not the background. */
  lemma {:induction false} RetryDiffers(colours: seq<Value>, bg: Value, draws: seq<nat>)
    requires colours != []
    ensures Retry(colours, bg, draws).Some? ==>
      Retry(colours, bg, draws).value in colours && !PyEq(Retry(colours, bg, draws).value, bg)
    decreases |draws|
  {
    if draws != [] && PyEq(Choice(colours, draws[0]), bg) {
      RetryDiffers(colours, bg, draws[1..]);
    }
  }

  /** When every colour equals the background, no stream of draws ever ends the text-colour loop. */
  lemma {:induction false} RetryNeverSettles(colours: seq<Value>, bg: Value, draws: seq<nat>)
    requires colours != []
    requires forall i :: 0 <= i < |colours| ==> PyEq(colours[i], bg)
    ensures Retry(colours, bg, draws) == None
    decreases |draws|
  {
    if draws != [] {
      assert Choice(colours, draws[0]) == colours[draws[0] % |colours|];
      RetryNeverSettles(colours, bg, draws[1..]);
    }
  }

  /** The text-colour loop can end exactly when some colour is not equal to the background under Python's `==`. */
  lemma RetrySettlesIff(colours: seq<Value>, bg: Value)
    requires colours != []
    ensures (exists draws :: Retry(colours, bg, draws).Some?) <==> (exists i :: 0 <= i < |colours| && !PyEq(colours[i], bg))
  {
    if exists i :: 0 <= i < |colours| && !PyEq(colours[i], bg) {
      var i :| 0 <= i < |colours| && !PyEq(colours[i], bg);
      var draws: seq<nat> := [i];
      assert i % |colours| == i;
      assert Choice(colours, draws[0]) == colours[i];
      assert Retry(colours, bg, draws).Some?;
      assert exists d :: Retry(colours, bg, d).Some?;
    } else {
      forall draws
        ensures Retry(colours, bg, draws) == None
      {
        RetryNeverSettles(colours, bg, draws);
      }
    }
  }

  /** With a single colour the background is that colour, and the text-colour loop never ends. */
  lemma SingleColourNeverSettles(colour: Value, bgDraw: nat, draws: seq<nat>)
    ensures Retry([colour], Choice([colour], bgDraw), draws) == None
  {
    PyEqReflexive(colour);
    RetryNeverSettles([colour], Choice([colour], bgDraw), draws);
  }

  /**
   * A manager whose settings hold a single colour and a usable "bg" entry
   * never finishes its construction: the text-colour loop cannot end.
   */
  lemma SingleColourUnsettled(prior: map<string, Value>, bgDraw: nat, textDraws: seq<nat>, outlineDraw: nat)
    requires ColoursReady(prior) && |prior["colors"].items| == 1
    requires "bg" !in prior || prior["bg"].Dict?
    ensures ColoursSet(prior, bgDraw, textDraws, outlineDraw).0 == Unsettled
  {
    var colours := prior["colors"].items;
    assert colours == [colours[0]];
    SingleColourNeverSettles(colours[0], bgDraw, textDraws);
  }

  /**
   * `(1, 0, 0)` and `(True, 0, 0)` are equal in Python, so with these two
   * colours, which the validator accepts as `[1, 0, 0]` and `[true, 0, 0]`,
   * the text-colour loop never ends.
   */
  lemma EqualSpellingsNeverSettle(bgDraw: nat, draws: seq<nat>)
    ensures var colours := [RgbTuple(1, 0, 0), Tuple([Bool(true), Int(0), Int(0)])];
      Retry(colours, Choice(colours, bgDraw), draws) == None
  {
    var colours := [RgbTuple(1, 0, 0), Tuple([Bool(true), Int(0), Int(0)])];
    var bg := Choice(colours, bgDraw);
    forall i | 0 <= i < |colours|
      ensures PyEq(colours[i], bg)
    {
      var a, b := colours[i], bg;
      assert a.items[1] == Int(0) && b.items[1] == Int(0) && a.items[2] == Int(0) && b.items[2] == Int(0);
      assert NumberOf(a.items[0]) == 1.0 && NumberOf(b.items[0]) == 1.0;
      assert forall j :: 0 <= j < 3 ==> PyEq(a.items[j], b.items[j]);
    }
    RetryNeverSettles(colours, bg, draws);
  }
}
