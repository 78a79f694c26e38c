/**
 * The `Button` component of the UI package: its prop defaults, the
 * composition of its CSS class attribute from a style table, and the
 * attributes of the `button` element it creates.
 *
 * This is the untyped copy (`button.js`); its variant and size are arbitrary
 * strings. The composition `BaseClasses` is the same expression in both
 * copies, and `TypedButton` reuses it.
 */
module Button {
  import opened Wrappers
  import opened Tokens

  /** The CSS module: authored class name -> generated class name. */
  type StyleTable = map<string, string>

  /** `styles[key]`: `undefined` when the table has no such entry. */
  function Lookup(styles: StyleTable, key: string): Option<string> {
    if key in styles then Some(styles[key]) else None
  }

  /**
   * The members every plain JavaScript object inherits from `Object.prototype`.
   * `styles[key]` with one of these keys yields the inherited member, which
   * `Lookup` does not model.
   */
  const InheritedMembers: set<string> := {
    "constructor", "__proto__", "hasOwnProperty", "isPrototypeOf",
    "propertyIsEnumerable", "toLocaleString", "toString", "valueOf",
    "__defineGetter__", "__defineSetter__", "__lookupGetter__", "__lookupSetter__"}

  /** The four style props as the caller passes them; `None` is an omitted prop. */
  datatype Props = Props(
    variant: Option<string>,
    size: Option<string>,
    fullWidth: Option<bool>,
    className: Option<string>)

  /** The style props after destructuring with defaults. */
  datatype Settings = Settings(variant: string, size: string, fullWidth: bool, className: string)

  const DefaultVariant: string := "primary"
  const DefaultSize: string := "medium"
  const DefaultFullWidth: bool := false
  const DefaultClassName: string := ""

  /** The destructuring defaults: an omitted prop takes its default, a given one is kept. */
  function WithDefaults(p: Props): Settings {
    Settings(
      p.variant.GetOr(DefaultVariant),
      p.size.GetOr(DefaultSize),
      p.fullWidth.GetOr(DefaultFullWidth),
      p.className.GetOr(DefaultClassName))
  }

  /** The five candidates, in their fixed order: base, variant, size, fullWidth, caller's class. */
  function Candidates(styles: StyleTable, s: Settings): seq<Option<string>> {
    [ Lookup(styles, "button"),
      Lookup(styles, s.variant),
      Lookup(styles, s.size),
      if s.fullWidth then Lookup(styles, "fullWidth") else Some(""),
      Some(s.className) ]
  }

  /** The candidates that survive `filter(Boolean)`. */
  function KeptTokens(styles: StyleTable, s: Settings): seq<string> {
    KeepTruthy(Candidates(styles, s))
  }

  /**
   * `baseClasses`: the kept candidates joined with single spaces. It is empty
   * exactly when every candidate is missing or empty.
   */
  function BaseClasses(styles: StyleTable, s: Settings): (r: string)
    ensures r == "" <==>
      !Truthy(Lookup(styles, "button")) &&
      !Truthy(Lookup(styles, s.variant)) &&
      !Truthy(Lookup(styles, s.size)) &&
      !(s.fullWidth && Truthy(Lookup(styles, "fullWidth"))) &&
      s.className == ""
  {
    var ts := KeptTokens(styles, s);
    KeptTokensInOrder(styles, s);
    JoinEmptyIff(ts, " ");
    Join(ts, " ")
  }

  /**
   * The kept tokens, slot by slot in the fixed order: base, variant, size,
   * fullWidth (consulted only when the flag is set), caller's class.
   */
  lemma KeptTokensInOrder(styles: StyleTable, s: Settings)
    ensures KeptTokens(styles, s) ==
      Slot(Lookup(styles, "button")) +
      Slot(Lookup(styles, s.variant)) +
      Slot(Lookup(styles, s.size)) +
      (if s.fullWidth then Slot(Lookup(styles, "fullWidth")) else []) +
      Slot(Some(s.className))
  {
    var cs := Candidates(styles, s);
    var a, b, c, d, e := cs[0], cs[1], cs[2], cs[3], cs[4];
    assert cs == [a] + [b] + [c] + [d] + [e];
    KeepTruthyAppend([a] + [b] + [c] + [d], [e]);
    KeepTruthyAppend([a] + [b] + [c], [d]);
    KeepTruthyAppend([a] + [b], [c]);
    KeepTruthyAppend([a], [b]);
    KeepTruthyOne(a);
    KeepTruthyOne(b);
    KeepTruthyOne(c);
    KeepTruthyOne(d);
    KeepTruthyOne(e);
  }

  /** The class string the untyped `Button` computes from its props. */
  function ClassName(styles: StyleTable, p: Props): string {
    BaseClasses(styles, WithDefaults(p))
  }

  /** Omitting a prop is the same as passing its default; a passed prop is used as given. */
  lemma DefaultsFillOmitted(p: Props)
    ensures WithDefaults(Props(None, None, None, None)) == Settings("primary", "medium", false, "")
    ensures p.variant.Some? ==> WithDefaults(p).variant == p.variant.value
    ensures p.size.Some? ==> WithDefaults(p).size == p.size.value
    ensures p.fullWidth.Some? ==> WithDefaults(p).fullWidth == p.fullWidth.value
    ensures p.className.Some? ==> WithDefaults(p).className == p.className.value
    ensures WithDefaults(p) == WithDefaults(p.(variant := Some(WithDefaults(p).variant)))
    ensures WithDefaults(p) == WithDefaults(p.(size := Some(WithDefaults(p).size)))
    ensures WithDefaults(p) == WithDefaults(p.(fullWidth := Some(WithDefaults(p).fullWidth)))
    ensures WithDefaults(p) == WithDefaults(p.(className := Some(WithDefaults(p).className)))
  {
  }

  /**
   * When no kept token contains a space, the class attribute reads back as
   * exactly the kept tokens, in order, each once, with one space between
   * consecutive tokens and none at either end.
   */
  lemma BaseClassesTokens(styles: StyleTable, s: Settings)
    requires forall i :: 0 <= i < |KeptTokens(styles, s)| ==> ' ' !in KeptTokens(styles, s)[i]
    ensures KeptTokens(styles, s) == [] ==> BaseClasses(styles, s) == ""
    ensures KeptTokens(styles, s) != [] ==> Split(BaseClasses(styles, s), ' ') == KeptTokens(styles, s)
    ensures WellSeparated(BaseClasses(styles, s), ' ')
    ensures KeptTokens(styles, s) != [] ==>
      multiset(BaseClasses(styles, s))[' '] == |KeptTokens(styles, s)| - 1
  {
    var ts := KeptTokens(styles, s);
    assert " " == [' '];
    JoinWellSeparated(ts, ' ');
    if ts != [] {
      SplitJoin(ts, ' ');
      JoinSeparatorCount(ts, ' ');
    }
  }

  /**
   * The caller's class name comes last and verbatim, spaces and all, after a
   * single space when anything precedes it; it is dropped only when empty.
   */
  lemma CallerClassNameLast(styles: StyleTable, s: Settings)
    ensures var head := KeepTruthy(Candidates(styles, s)[..4]);
      BaseClasses(styles, s) ==
        if s.className == "" then Join(head, " ")
        else if head == [] then s.className
        else Join(head, " ") + " " + s.className
  {
    var cs := Candidates(styles, s);
    var head := KeepTruthy(cs[..4]);
    assert cs == cs[..4] + [cs[4]];
    KeepTruthyAppend(cs[..4], [cs[4]]);
    KeepTruthyOne(cs[4]);
    if s.className == "" {
      assert KeptTokens(styles, s) == head + [];
      assert head + [] == head;
    } else if head == [] {
      assert KeptTokens(styles, s) == [s.className];
    } else {
      JoinAppend(head, s.className, " ");
    }
  }

  /**
   * With the flag off the table's fullWidth entry never contributes: the
   * result is the same whether or not the table has it. It does contribute
   * when the variant or the size key is itself "fullWidth", which the untyped
   * copy lets through (see `FullWidthAsVariantKey`).
   */
  lemma FullWidthOffIgnoresEntry(styles: StyleTable, s: Settings)
    requires !s.fullWidth && s.variant != "fullWidth" && s.size != "fullWidth"
    ensures BaseClasses(styles, s) == BaseClasses(styles - {"fullWidth"}, s)
  {
    assert Candidates(styles, s) == Candidates(styles - {"fullWidth"}, s);
  }

  /** The untyped copy reads the fullWidth entry through a variant named "fullWidth". */
  lemma FullWidthAsVariantKey()
    ensures var s := Settings("fullWidth", "medium", false, "");
      BaseClasses(map["fullWidth" := "w"], s) == "w" &&
      BaseClasses(map["fullWidth" := "w"] - {"fullWidth"}, s) == ""
  {
    var s := Settings("fullWidth", "medium", false, "");
    KeptTokensInOrder(map["fullWidth" := "w"], s);
    assert map["fullWidth" := "w"] - {"fullWidth"} == map[];
  }

  /**
   * A missing entry and an empty one are alike: any key, the variant or size
   * an untyped caller made up included, that the table lacks is silently
   * omitted, exactly as if it mapped to "".
   */
  lemma MissingLikeEmpty(styles: StyleTable, s: Settings, key: string)
    requires key !in styles
    ensures BaseClasses(styles[key := ""], s) == BaseClasses(styles, s)
  {
    var t := styles[key := ""];
    assert Slot(Lookup(t, "button")) == Slot(Lookup(styles, "button"));
    assert Slot(Lookup(t, s.variant)) == Slot(Lookup(styles, s.variant));
    assert Slot(Lookup(t, s.size)) == Slot(Lookup(styles, s.size));
    assert Slot(Lookup(t, "fullWidth")) == Slot(Lookup(styles, "fullWidth"));
    KeptTokensInOrder(styles, s);
    KeptTokensInOrder(styles[key := ""], s);
  }

  /** An empty table with every prop omitted gives the empty class string. */
  lemma EmptyTableDefaults()
    ensures ClassName(map[], Props(None, None, None, None)) == ""
  {
  }

  /** The join `ScenarioDefaults` produces, computed step by step. */
  lemma DefaultsJoin()
    ensures Join(["btn", "btn-primary", "btn-md"], " ") == "btn btn-primary btn-md"
  {
    var ts := ["btn", "btn-primary", "btn-md"];
    assert ts[1..] == ["btn-primary", "btn-md"] && ts[1..][1..] == ["btn-md"];
    assert Join(ts[1..][1..], " ") == "btn-md";
    assert Join(ts[1..], " ") == "btn-primary btn-md";
  }

  /** The join `ScenarioFullWidth` produces, computed step by step. */
  lemma FullWidthJoin()
    ensures Join(["btn", "btn-md", "btn-full", "x"], " ") == "btn btn-md btn-full x"
  {
    var ts := ["btn", "btn-md", "btn-full", "x"];
    assert ts[1..] == ["btn-md", "btn-full", "x"];
    assert ts[1..][1..] == ["btn-full", "x"];
    assert ts[1..][1..][1..] == ["x"];
    assert Join(ts[1..][1..][1..], " ") == "x";
    assert Join(ts[1..][1..], " ") == "btn-full x";
    assert Join(ts[1..], " ") == "btn-md btn-full x";
  }

  /** The defaults look up "button", "primary" and "medium". */
  lemma ScenarioDefaults()
    ensures var styles := map["button" := "btn", "primary" := "btn-primary", "medium" := "btn-md"];
      ClassName(styles, Props(None, None, None, None)) == "btn btn-primary btn-md"
  {
    var styles := map["button" := "btn", "primary" := "btn-primary", "medium" := "btn-md"];
    var s := WithDefaults(Props(None, None, None, None));
    assert s == Settings("primary", "medium", false, "");
    assert Lookup(styles, "button") == Some("btn");
    assert Lookup(styles, "primary") == Some("btn-primary");
    assert Lookup(styles, "medium") == Some("btn-md");
    KeptTokensInOrder(styles, s);
    assert KeptTokens(styles, s) == ["btn", "btn-primary", "btn-md"];
    DefaultsJoin();
  }

  /** Unknown variant, size and fullWidth entries are dropped; the caller's class stays. */
  lemma ScenarioMissingEntries()
    ensures var styles := map["button" := "btn", "primary" := "btn-primary", "medium" := "btn-md"];
      ClassName(styles, Props(Some("secondary"), Some("large"), Some(true), Some("my-extra"))) == "btn my-extra"
  {
    var styles := map["button" := "btn", "primary" := "btn-primary", "medium" := "btn-md"];
    var s := WithDefaults(Props(Some("secondary"), Some("large"), Some(true), Some("my-extra")));
    assert s == Settings("secondary", "large", true, "my-extra");
    assert Slot(Lookup(styles, "button")) == ["btn"];
    assert Slot(Lookup(styles, "secondary")) == [];
    assert Slot(Lookup(styles, "large")) == [];
    assert Slot(Lookup(styles, "fullWidth")) == [];
    assert Slot(Some("my-extra")) == ["my-extra"];
    KeptTokensInOrder(styles, s);
    assert KeptTokens(styles, s) == ["btn"] + [] + [] + [] + ["my-extra"];
    assert BaseClasses(styles, s) == Join(["btn", "my-extra"], " ");
  }

  /** The fullWidth token sits after the size token and before the caller's class. */
  lemma ScenarioFullWidth()
    ensures var styles := map["button" := "btn", "medium" := "btn-md", "fullWidth" := "btn-full"];
      ClassName(styles, Props(None, None, Some(true), Some("x"))) == "btn btn-md btn-full x"
  {
    var styles := map["button" := "btn", "medium" := "btn-md", "fullWidth" := "btn-full"];
    var s := WithDefaults(Props(None, None, Some(true), Some("x")));
    assert s == Settings("primary", "medium", true, "x");
    assert Slot(Lookup(styles, "button")) == ["btn"];
    assert Slot(Lookup(styles, "primary")) == [];
    assert Slot(Lookup(styles, "medium")) == ["btn-md"];
    assert Slot(Lookup(styles, "fullWidth")) == ["btn-full"];
    assert Slot(Some("x")) == ["x"];
    KeptTokensInOrder(styles, s);
    assert KeptTokens(styles, s) == ["btn"] + [] + ["btn-md"] + ["btn-full"] + ["x"];
    FullWidthJoin();
    assert BaseClasses(styles, s) == Join(["btn", "btn-md", "btn-full", "x"], " ");
  }

  /** A value in the props bag: text or a boolean flag. */
  datatype Attr = Text(text: string) | Flag(flag: bool)

  /** The created element: its tag and attributes. */
  datatype Element = Element(tag: string, attrs: map<string, Attr>)

  /** The props the component destructures; everything else is `...props`. */
  const Destructured: set<string> := {"children", "variant", "size", "fullWidth", "className"}

  function TextProp(bag: map<string, Attr>, key: string): Option<string> {
    if key in bag && bag[key].Text? then Some(bag[key].text) else None
  }

  function FlagProp(bag: map<string, Attr>, key: string): Option<bool> {
    if key in bag && bag[key].Flag? then Some(bag[key].flag) else None
  }

  /** The four style props read out of the caller's props bag. */
  function PropsOf(bag: map<string, Attr>): Props {
    Props(TextProp(bag, "variant"), TextProp(bag, "size"), FlagProp(bag, "fullWidth"), TextProp(bag, "className"))
  }

  /**
   * The element `Button` creates: a `button` whose class attribute is the
   * computed class string, whatever the bag holds (the caller's `className`
   * was destructured out, so spreading the rest cannot replace it), and
   * whose other attributes are the passthrough props unmodified.
   */
  function Render(styles: StyleTable, bag: map<string, Attr>): (e: Element)
    ensures e.tag == "button"
    ensures "className" in e.attrs && e.attrs["className"] == Text(ClassName(styles, PropsOf(bag)))
    ensures forall k :: k in e.attrs <==> k == "className" || (k in bag && k !in Destructured)
    ensures forall k :: k in bag && k !in Destructured ==> k in e.attrs && e.attrs[k] == bag[k]
  {
    Element("button", map["className" := Text(ClassName(styles, PropsOf(bag)))] + (bag - Destructured))
  }
}
