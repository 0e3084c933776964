/** What the video tag promises: which attributes appear and when, with which
    values and in which order, what the track elements are, and the shape of
    the whole markup. */
module VideoTagProperties {
  import opened Php
  import opened Html
  import opened VideoTagRenderer

  // ---------------------------------------------------------------------
  // Attributes by name

  /** The attributes called `n`, in list order. */
  function Named(attrs: seq<Attribute>, n: string): seq<Attribute> {
    if attrs == [] then []
    else Named(attrs[..|attrs| - 1], n) + (if attrs[|attrs| - 1].name == n then [attrs[|attrs| - 1]] else [])
  }

  /** `[a]` when `c` holds, nothing otherwise. */
  function When(c: bool, a: Attribute): seq<Attribute> {
    if c then [a] else []
  }

  lemma {:induction false} NamedAppend(a: seq<Attribute>, b: seq<Attribute>, n: string)
    ensures Named(a + b, n) == Named(a, n) + Named(b, n)
    decreases |b|
  {
    if b == [] {
      assert a + b == a;
    } else {
      var c := b[..|b| - 1];
      assert (a + b)[..|a + b| - 1] == a + c;
      NamedAppend(a, c, n);
    }
  }

  lemma NamedAddIf(s: seq<Attribute>, c: bool, a: Attribute, n: string)
    ensures Named(AddIf(s, c, a), n) == Named(s, n) + When(c && a.name == n, a)
  {
    if c {
      assert (s + [a])[..|s|] == s;
    }
  }

  /** Two conditional appends to the empty list, by name. */
  lemma NamedAddIfTwo(c1: bool, a1: Attribute, c2: bool, a2: Attribute, n: string)
    ensures Named(AddIf(AddIf([], c1, a1), c2, a2), n) == When(c1 && a1.name == n, a1) + When(c2 && a2.name == n, a2)
  {
    NamedAddIf([], c1, a1, n);
    NamedAddIf(AddIf([], c1, a1), c2, a2, n);
  }

  /** Four conditional appends to the empty list, by name. */
  lemma NamedAddIfFourParts(c1: bool, a1: Attribute, c2: bool, a2: Attribute, c3: bool, a3: Attribute,
                            c4: bool, a4: Attribute, n: string)
    ensures Named(AddIf(AddIf(AddIf(AddIf([], c1, a1), c2, a2), c3, a3), c4, a4), n)
            == When(c1 && a1.name == n, a1) + When(c2 && a2.name == n, a2)
               + When(c3 && a3.name == n, a3) + When(c4 && a4.name == n, a4)
  {
    var s := AddIf(AddIf([], c1, a1), c2, a2);
    NamedAddIfTwo(c1, a1, c2, a2, n);
    NamedAddIf(s, c3, a3, n);
    NamedAddIf(AddIf(s, c3, a3), c4, a4, n);
  }

  /** Of four attributes with distinct names, at most one is called `n`. */
  lemma WhenFour(c1: bool, a1: Attribute, c2: bool, a2: Attribute, c3: bool, a3: Attribute,
                 c4: bool, a4: Attribute, n: string)
    requires a1.name != a2.name && a1.name != a3.name && a1.name != a4.name
    requires a2.name != a3.name && a2.name != a4.name && a3.name != a4.name
    ensures When(c1 && a1.name == n, a1) + When(c2 && a2.name == n, a2)
            + When(c3 && a3.name == n, a3) + When(c4 && a4.name == n, a4)
            == if n == a1.name then When(c1, a1)
               else if n == a2.name then When(c2, a2)
               else if n == a3.name then When(c3, a3)
               else if n == a4.name then When(c4, a4)
               else []
  {
  }

  /** Four conditional appends to the empty list, under four distinct names,
      by name. */
  lemma NamedAddIfFour(c1: bool, a1: Attribute, c2: bool, a2: Attribute, c3: bool, a3: Attribute,
                       c4: bool, a4: Attribute, n: string)
    requires a1.name != a2.name && a1.name != a3.name && a1.name != a4.name
    requires a2.name != a3.name && a2.name != a4.name && a3.name != a4.name
    ensures Named(AddIf(AddIf(AddIf(AddIf([], c1, a1), c2, a2), c3, a3), c4, a4), n)
            == if n == a1.name then When(c1, a1)
               else if n == a2.name then When(c2, a2)
               else if n == a3.name then When(c3, a3)
               else if n == a4.name then When(c4, a4)
               else []
  {
    NamedAddIfFourParts(c1, a1, c2, a2, c3, a3, c4, a4, n);
    WhenFour(c1, a1, c2, a2, c3, a3, c4, a4, n);
  }

  lemma NamedWhen(c: bool, a: Attribute, n: string)
    ensures Named(When(c, a), n) == if a.name == n then When(c, a) else []
  {
    if c {
      assert [a][..0] == [];
    }
  }

  lemma NamedFive(s: seq<Attribute>, f: seq<Attribute>, p: seq<Attribute>, t: seq<Attribute>,
                  d: seq<Attribute>, n: string)
    ensures Named(s + f + p + t + d, n) == Named(s, n) + Named(f, n) + Named(p, n) + Named(t, n) + Named(d, n)
  {
    NamedAppend(s, f, n);
    NamedAppend(s + f, p, n);
    NamedAppend(s + f + p, t, n);
    NamedAppend(s + f + p + t, d, n);
  }

  /** The attributes called `n`, piece by piece. */
  lemma NamedAttributes(file: MediaFile, width: Value, height: Value, options: Options, n: string)
    ensures var o := EffectiveOptions(options, file);
            Named(Attributes(file, width, height, options), n)
            == Named(SizeAttributes(width, height), n) + Named(FlagAttributes(o), n)
               + Named(PosterAttributes(o, file.original) + [ContextMenu], n)
               + Named(PassThrough(o, PassThroughKeys), n) + Named([DataSetup], n)
  {
    var o := EffectiveOptions(options, file);
    NamedFive(SizeAttributes(width, height), FlagAttributes(o), PosterAttributes(o, file.original) + [ContextMenu],
              PassThrough(o, PassThroughKeys), [DataSetup], n);
  }

  // ---------------------------------------------------------------------
  // Each piece by name

  /** Width and height, by name. */
  lemma NamedSizes(width: Value, height: Value, n: string)
    ensures Named(SizeAttributes(width, height), n)
            == if n == "width" then When(IntCast(width) > 0, Pair("width", Decimal(IntCast(width))))
               else if n == "height" then When(IntCast(height) > 0, Pair("height", Decimal(IntCast(height))))
               else []
  {
    NamedAddIfTwo(IntCast(width) > 0, Pair("width", Decimal(IntCast(width))),
                  IntCast(height) > 0, Pair("height", Decimal(IntCast(height))), n);
  }

  lemma NamedFourFlags(b1: bool, b2: bool, b3: bool, b4: bool, n: string)
    ensures Named(AddIf(AddIf(AddIf(AddIf([], b1, Flag("controls")), b2, Flag("autoplay")), b3, Flag("muted")),
                        b4, Flag("loop")), n)
            == if n == "controls" then When(b1, Flag("controls"))
               else if n == "autoplay" then When(b2, Flag("autoplay"))
               else if n == "muted" then When(b3, Flag("muted"))
               else if n == "loop" then When(b4, Flag("loop"))
               else []
  {
    NamedAddIfFour(b1, Flag("controls"), b2, Flag("autoplay"), b3, Flag("muted"), b4, Flag("loop"), n);
  }

  /** The flags, by name. */
  lemma NamedFlags(o: Options, n: string)
    ensures Named(FlagAttributes(o), n)
            == if n == "controls" then When(!IsSet(o, "controls") || !EmptyAt(o, "controls"), Flag("controls"))
               else if n == "autoplay" then When(!EmptyAt(o, "autoplay"), Flag("autoplay"))
               else if n == "muted" then When(!EmptyAt(o, "muted"), Flag("muted"))
               else if n == "loop" then When(!EmptyAt(o, "loop"), Flag("loop"))
               else []
  {
    var b1, b2, b3, b4 := !IsSet(o, "controls") || !EmptyAt(o, "controls"), !EmptyAt(o, "autoplay"),
                          !EmptyAt(o, "muted"), !EmptyAt(o, "loop");
    assert FlagAttributes(o)
           == AddIf(AddIf(AddIf(AddIf([], b1, Flag("controls")), b2, Flag("autoplay")), b3, Flag("muted")),
                    b4, Flag("loop"));
    NamedFourFlags(b1, b2, b3, b4, n);
  }

  lemma NamedTwoPosters(b1: bool, v1: string, b2: bool, v2: string, n: string)
    ensures Named(When(b1, Pair("poster", v1)) + When(b2, Pair("poster", v2)) + [ContextMenu], n)
            == if n == "poster" then When(b1, Pair("poster", v1)) + When(b2, Pair("poster", v2))
               else if n == "oncontextmenu" then [ContextMenu]
               else []
  {
    NamedAppend(When(b1, Pair("poster", v1)), When(b2, Pair("poster", v2)), n);
    NamedAppend(When(b1, Pair("poster", v1)) + When(b2, Pair("poster", v2)), [ContextMenu], n);
    NamedWhen(b1, Pair("poster", v1), n);
    NamedWhen(b2, Pair("poster", v2), n);
    NamedWhen(true, ContextMenu, n);
  }

  /** The posters and the context-menu attribute, by name. */
  lemma NamedPosters(o: Options, original: OriginalFile, n: string)
    ensures Named(PosterAttributes(o, original) + [ContextMenu], n)
            == if n == "poster" then PosterAttributes(o, original)
               else if n == "oncontextmenu" then [ContextMenu]
               else []
  {
    var b1, v1 := !EmptyAt(o, "poster"), if "poster" in o then ToStr(o["poster"]) else "";
    var b2 := !Empty(original.posterProperty) && |original.posterUrls| > 0;
    var v2 := if |original.posterUrls| > 0 then original.posterUrls[0] else "";
    assert PosterAttributes(o, original) == When(b1, Pair("poster", v1)) + When(b2, Pair("poster", v2));
    NamedTwoPosters(b1, v1, b2, v2, n);
  }

  /** The attribute the pass-through loop adds for `key`, if any. */
  function PassOne(o: Options, key: string): seq<Attribute> {
    if !EmptyAt(o, key) then [Pair(key, HtmlSpecialChars(ToStr(o[key])))] else []
  }

  lemma NamedPassOne(o: Options, key: string, n: string)
    ensures Named(PassOne(o, key), n) == if key == n then PassOne(o, key) else []
  {
    if !EmptyAt(o, key) {
      assert PassOne(o, key)[..0] == [];
    }
  }

  /** The pass-through loop adds nothing under a name that is not a key. */
  lemma {:induction false} NamedPassThroughOther(o: Options, keys: seq<string>, n: string)
    requires n !in keys
    ensures Named(PassThrough(o, keys), n) == []
    decreases |keys|
  {
    if keys != [] {
      var key := keys[|keys| - 1];
      NamedPassThroughOther(o, keys[..|keys| - 1], n);
      NamedAppend(PassThrough(o, keys[..|keys| - 1]), PassOne(o, key), n);
      NamedPassOne(o, key, n);
    }
  }

  /** Under a key that occurs once, the pass-through loop adds that key's
      attribute and nothing else. */
  lemma {:induction false} NamedPassThroughKey(o: Options, keys: seq<string>, i: nat)
    requires i < |keys|
    requires forall j :: 0 <= j < |keys| && j != i ==> keys[j] != keys[i]
    ensures Named(PassThrough(o, keys), keys[i]) == PassOne(o, keys[i])
    decreases |keys|
  {
    var init := keys[..|keys| - 1];
    var key := keys[|keys| - 1];
    NamedAppend(PassThrough(o, init), PassOne(o, key), keys[i]);
    NamedPassOne(o, key, keys[i]);
    if i == |keys| - 1 {
      assert keys[i] !in init;
      NamedPassThroughOther(o, init, keys[i]);
    } else {
      NamedPassThroughKey(o, init, i);
    }
  }

  lemma NamedDataSetup(n: string)
    ensures Named([DataSetup], n) == if n == "data-setup" then [DataSetup] else []
  {
    NamedWhen(true, DataSetup, n);
  }

  /** The effective options agree with the caller's on every key but
      `autoplay`. */
  lemma OptionKept(options: Options, file: MediaFile, k: string)
    requires k != "autoplay"
    ensures var o := EffectiveOptions(options, file);
            && IsSet(o, k) == IsSet(options, k) && EmptyAt(o, k) == EmptyAt(options, k)
            && (k in options ==> k in o && o[k] == options[k])
  {
  }

  // ---------------------------------------------------------------------
  // The names each piece uses

  lemma FlagNames(n: string)
    requires n == "controls" || n == "autoplay" || n == "muted" || n == "loop"
    ensures n != "width" && n != "height" && n != "poster" && n != "oncontextmenu" && n != "data-setup"
    ensures n !in PassThroughKeys
  {
  }

  lemma SizeNames(n: string)
    requires n == "width" || n == "height"
    ensures n != "controls" && n != "autoplay" && n != "muted" && n != "loop"
    ensures n != "poster" && n != "oncontextmenu" && n != "data-setup"
    ensures n !in PassThroughKeys
  {
  }

  lemma FixedNames(n: string)
    requires n == "poster" || n == "oncontextmenu" || n == "data-setup"
    ensures n != "width" && n != "height"
    ensures n != "controls" && n != "autoplay" && n != "muted" && n != "loop"
    ensures n !in PassThroughKeys
  {
  }

  lemma PassThroughNames(n: string)
    requires n in PassThroughKeys
    ensures n != "width" && n != "height"
    ensures n != "controls" && n != "autoplay" && n != "muted" && n != "loop"
    ensures n != "poster" && n != "oncontextmenu" && n != "data-setup"
  {
  }

  lemma PassThroughKeysDistinct()
    ensures forall i, j :: 0 <= i < |PassThroughKeys| && 0 <= j < |PassThroughKeys| && i != j
              ==> PassThroughKeys[i] != PassThroughKeys[j]
  {
  }

  // ---------------------------------------------------------------------
  // Reduction of the whole list to the piece that owns a name

  lemma AttributesAtFlag(file: MediaFile, width: Value, height: Value, options: Options, n: string)
    requires n == "controls" || n == "autoplay" || n == "muted" || n == "loop"
    ensures Named(Attributes(file, width, height, options), n) == Named(FlagAttributes(EffectiveOptions(options, file)), n)
  {
    var o := EffectiveOptions(options, file);
    NamedAttributes(file, width, height, options, n);
    FlagNames(n);
    NamedSizes(width, height, n);
    NamedPosters(o, file.original, n);
    NamedPassThroughOther(o, PassThroughKeys, n);
    NamedDataSetup(n);
  }

  lemma AttributesAtSize(file: MediaFile, width: Value, height: Value, options: Options, n: string)
    requires n == "width" || n == "height"
    ensures Named(Attributes(file, width, height, options), n) == Named(SizeAttributes(width, height), n)
  {
    var o := EffectiveOptions(options, file);
    NamedAttributes(file, width, height, options, n);
    SizeNames(n);
    NamedFlags(o, n);
    NamedPosters(o, file.original, n);
    NamedPassThroughOther(o, PassThroughKeys, n);
    NamedDataSetup(n);
  }

  lemma AttributesAtPoster(file: MediaFile, width: Value, height: Value, options: Options, n: string)
    requires n == "poster" || n == "oncontextmenu"
    ensures var o := EffectiveOptions(options, file);
            Named(Attributes(file, width, height, options), n)
            == Named(PosterAttributes(o, file.original) + [ContextMenu], n)
  {
    var o := EffectiveOptions(options, file);
    NamedAttributes(file, width, height, options, n);
    FixedNames(n);
    NamedSizes(width, height, n);
    NamedFlags(o, n);
    NamedPassThroughOther(o, PassThroughKeys, n);
    NamedDataSetup(n);
  }

  lemma AttributesAtDataSetup(file: MediaFile, width: Value, height: Value, options: Options)
    ensures Named(Attributes(file, width, height, options), "data-setup") == [DataSetup]
  {
    var o := EffectiveOptions(options, file);
    NamedAttributes(file, width, height, options, "data-setup");
    FixedNames("data-setup");
    NamedSizes(width, height, "data-setup");
    NamedFlags(o, "data-setup");
    NamedPosters(o, file.original, "data-setup");
    NamedPassThroughOther(o, PassThroughKeys, "data-setup");
    NamedDataSetup("data-setup");
  }

  lemma AttributesAtPassThrough(file: MediaFile, width: Value, height: Value, options: Options, n: string)
    requires n in PassThroughKeys
    ensures Named(Attributes(file, width, height, options), n)
            == Named(PassThrough(EffectiveOptions(options, file), PassThroughKeys), n)
  {
    var o := EffectiveOptions(options, file);
    NamedAttributes(file, width, height, options, n);
    PassThroughNames(n);
    NamedSizes(width, height, n);
    NamedFlags(o, n);
    NamedPosters(o, file.original, n);
    NamedDataSetup(n);
  }

  // ---------------------------------------------------------------------
  // The attribute rules

  /** `width="N"` appears, once, exactly when the integer coercion N of the
      width is positive, and is then the first attribute; `height="N"`
      likewise. */
  lemma SizeRule(file: MediaFile, width: Value, height: Value, options: Options)
    ensures Named(Attributes(file, width, height, options), "width")
            == if IntCast(width) > 0 then [Pair("width", Decimal(IntCast(width)))] else []
    ensures Named(Attributes(file, width, height, options), "height")
            == if IntCast(height) > 0 then [Pair("height", Decimal(IntCast(height)))] else []
    ensures IntCast(width) > 0 ==> Attributes(file, width, height, options)[0] == Pair("width", Decimal(IntCast(width)))
  {
    AttributesAtSize(file, width, height, options, "width");
    NamedSizes(width, height, "width");
    AttributesAtSize(file, width, height, options, "height");
    NamedSizes(width, height, "height");
  }

  /** A size in the format with a unit suffix, such as "200m" or "200c",
      gives the number before the suffix. */
  lemma SizeWithSuffix(file: MediaFile, n: nat, suffix: string, height: Value, options: Options)
    requires n > 0
    requires !ContinuesNumber(suffix)
    ensures Named(Attributes(file, Str(Decimal(n) + suffix), height, options), "width")
            == [Pair("width", Decimal(n))]
  {
    DecimalRoundTrip(n, suffix);
    SizeRule(file, Str(Decimal(n) + suffix), height, options);
  }

  /** `controls` is there, once, unless the caller set the option to an empty
      value. */
  lemma ControlsRule(file: MediaFile, width: Value, height: Value, options: Options)
    ensures Named(Attributes(file, width, height, options), "controls")
            == if IsSet(options, "controls") && Empty(options["controls"]) then [] else [Flag("controls")]
  {
    AttributesAtFlag(file, width, height, options, "controls");
    NamedFlags(EffectiveOptions(options, file), "controls");
    OptionKept(options, file, "controls");
  }

  /** `autoplay` appears exactly when an explicitly set option is not empty,
      or, with the option unset, when the file is a reference whose stored
      property is not empty: the stored property never overrides the option. */
  lemma AutoplayRule(file: MediaFile, width: Value, height: Value, options: Options)
    ensures IsSet(options, "autoplay") ==>
              Named(Attributes(file, width, height, options), "autoplay")
              == if Empty(options["autoplay"]) then [] else [Flag("autoplay")]
    ensures !IsSet(options, "autoplay") ==>
              Named(Attributes(file, width, height, options), "autoplay")
              == if file.autoplayProperty.Some? && !Empty(file.autoplayProperty.value)
                 then [Flag("autoplay")] else []
  {
    AttributesAtFlag(file, width, height, options, "autoplay");
    NamedFlags(EffectiveOptions(options, file), "autoplay");
    AutoplayFallback(options, file);
  }

  /** `muted` and `loop` appear, once, exactly when their options are not
      empty. */
  lemma MutedLoopRule(file: MediaFile, width: Value, height: Value, options: Options, k: string)
    requires k == "muted" || k == "loop"
    ensures Named(Attributes(file, width, height, options), k)
            == if EmptyAt(options, k) then [] else [Flag(k)]
  {
    AttributesAtFlag(file, width, height, options, k);
    NamedFlags(EffectiveOptions(options, file), k);
    OptionKept(options, file, k);
  }

  /** The explicit poster option, as it is, then the first related poster:
      each independently of the other, so both can appear. */
  lemma PosterRule(file: MediaFile, width: Value, height: Value, options: Options)
    ensures Named(Attributes(file, width, height, options), "poster")
            == (if EmptyAt(options, "poster") then [] else [Pair("poster", ToStr(options["poster"]))])
               + (if !Empty(file.original.posterProperty) && |file.original.posterUrls| > 0
                  then [Pair("poster", file.original.posterUrls[0])] else [])
  {
    var o := EffectiveOptions(options, file);
    AttributesAtPoster(file, width, height, options, "poster");
    NamedPosters(o, file.original, "poster");
    OptionKept(options, file, "poster");
  }

  /** `oncontextmenu` and `data-setup` are always there, once each, and
      `data-setup` is the last attribute. */
  lemma FixedAttributesRule(file: MediaFile, width: Value, height: Value, options: Options)
    ensures Named(Attributes(file, width, height, options), "oncontextmenu") == [ContextMenu]
    ensures Named(Attributes(file, width, height, options), "data-setup") == [DataSetup]
    ensures var attrs := Attributes(file, width, height, options);
            |attrs| > 0 && attrs[|attrs| - 1] == DataSetup
  {
    var o := EffectiveOptions(options, file);
    AttributesAtPoster(file, width, height, options, "oncontextmenu");
    NamedPosters(o, file.original, "oncontextmenu");
    AttributesAtDataSetup(file, width, height, options);
  }

  /** Each pass-through option appears once, with its value escaped, when it
      is not empty, and not at all otherwise. */
  lemma PassThroughRule(file: MediaFile, width: Value, height: Value, options: Options, key: string)
    requires key in PassThroughKeys
    ensures Named(Attributes(file, width, height, options), key)
            == if EmptyAt(options, key) then [] else [Pair(key, HtmlSpecialChars(ToStr(options[key])))]
  {
    var o := EffectiveOptions(options, file);
    AttributesAtPassThrough(file, width, height, options, key);
    var i :| 0 <= i < |PassThroughKeys| && PassThroughKeys[i] == key;
    PassThroughKeysDistinct();
    NamedPassThroughKey(o, PassThroughKeys, i);
    PassThroughNames(key);
    OptionKept(options, file, key);
  }

  // ---------------------------------------------------------------------
  // Attribute order

  /** The place of an attribute name in the order the renderer adds
      attributes; the two posters share a place. */
  function Rank(n: string): nat {
    if n == "width" then 0
    else if n == "height" then 1
    else if n == "controls" then 2
    else if n == "autoplay" then 3
    else if n == "muted" then 4
    else if n == "loop" then 5
    else if n == "poster" then 6
    else if n == "oncontextmenu" then 7
    else if n == "class" then 8
    else if n == "dir" then 9
    else if n == "id" then 10
    else if n == "lang" then 11
    else if n == "style" then 12
    else if n == "title" then 13
    else if n == "accesskey" then 14
    else if n == "tabindex" then 15
    else if n == "onclick" then 16
    else if n == "data-setup" then 17
    else 18
  }

  /** The names of `attrs` come in rank order. */
  predicate Ordered(attrs: seq<Attribute>) {
    forall i, j :: 0 <= i < j < |attrs| ==> Rank(attrs[i].name) <= Rank(attrs[j].name)
  }

  predicate RanksWithin(attrs: seq<Attribute>, lo: int, hi: int) {
    forall i :: 0 <= i < |attrs| ==> lo <= Rank(attrs[i].name) <= hi
  }

  lemma OrderedConcat(a: seq<Attribute>, b: seq<Attribute>, lo: int, mid: int, hi: int)
    requires Ordered(a) && RanksWithin(a, lo, mid)
    requires Ordered(b) && RanksWithin(b, mid, hi)
    requires lo <= mid <= hi
    ensures Ordered(a + b) && RanksWithin(a + b, lo, hi)
  {
    forall i, j | 0 <= i < j < |a + b|
      ensures Rank((a + b)[i].name) <= Rank((a + b)[j].name)
    {
      if j < |a| {
      } else if i < |a| {
        assert Rank(a[i].name) <= mid <= Rank(b[j - |a|].name);
      } else {
        assert (a + b)[i] == b[i - |a|] && (a + b)[j] == b[j - |a|];
      }
    }
    forall i | 0 <= i < |a + b|
      ensures lo <= Rank((a + b)[i].name) <= hi
    {
      if i >= |a| {
        assert (a + b)[i] == b[i - |a|];
      }
    }
  }

  lemma OrderedAddIf(s: seq<Attribute>, c: bool, a: Attribute, lo: int)
    requires Ordered(s) && RanksWithin(s, lo, Rank(a.name))
    requires lo <= Rank(a.name)
    ensures Ordered(AddIf(s, c, a)) && RanksWithin(AddIf(s, c, a), lo, Rank(a.name))
  {
    if c {
      OrderedConcat(s, [a], lo, Rank(a.name), Rank(a.name));
    }
  }

  lemma SizesOrdered(width: Value, height: Value)
    ensures Ordered(SizeAttributes(width, height)) && RanksWithin(SizeAttributes(width, height), 0, 1)
  {
    var w := Pair("width", Decimal(IntCast(width)));
    var h := Pair("height", Decimal(IntCast(height)));
    assert Rank(w.name) == 0 && Rank(h.name) == 1;
    OrderedAddIf([], IntCast(width) > 0, w, 0);
    OrderedAddIf(AddIf([], IntCast(width) > 0, w), IntCast(height) > 0, h, 0);
  }

  lemma FourFlagsOrdered(b1: bool, b2: bool, b3: bool, b4: bool)
    ensures var f := AddIf(AddIf(AddIf(AddIf([], b1, Flag("controls")), b2, Flag("autoplay")), b3, Flag("muted")),
                           b4, Flag("loop"));
            Ordered(f) && RanksWithin(f, 2, 5)
  {
    var c := AddIf([], b1, Flag("controls"));
    var a := AddIf(c, b2, Flag("autoplay"));
    var m := AddIf(a, b3, Flag("muted"));
    assert Rank("controls") == 2 && Rank("autoplay") == 3 && Rank("muted") == 4 && Rank("loop") == 5;
    OrderedAddIf([], b1, Flag("controls"), 2);
    OrderedAddIf(c, b2, Flag("autoplay"), 2);
    OrderedAddIf(a, b3, Flag("muted"), 2);
    OrderedAddIf(m, b4, Flag("loop"), 2);
  }

  lemma FlagsOrdered(o: Options)
    ensures Ordered(FlagAttributes(o)) && RanksWithin(FlagAttributes(o), 2, 5)
  {
    var b1, b2, b3, b4 := !IsSet(o, "controls") || !EmptyAt(o, "controls"), !EmptyAt(o, "autoplay"),
                          !EmptyAt(o, "muted"), !EmptyAt(o, "loop");
    assert FlagAttributes(o)
           == AddIf(AddIf(AddIf(AddIf([], b1, Flag("controls")), b2, Flag("autoplay")), b3, Flag("muted")),
                    b4, Flag("loop"));
    FourFlagsOrdered(b1, b2, b3, b4);
  }

  lemma PostersOrdered(o: Options, original: OriginalFile)
    ensures Ordered(PosterAttributes(o, original) + [ContextMenu])
    ensures RanksWithin(PosterAttributes(o, original) + [ContextMenu], 6, 7)
  {
    var p := PosterAttributes(o, original);
    assert Rank("poster") == 6 && Rank(ContextMenu.name) == 7;
    assert forall i :: 0 <= i < |p| ==> p[i].name == "poster";
    OrderedConcat(p, [ContextMenu], 6, 7, 7);
  }

  /** Keys whose ranks strictly increase. */
  predicate RankedKeys(keys: seq<string>) {
    forall i, j :: 0 <= i < j < |keys| ==> Rank(keys[i]) < Rank(keys[j])
  }

  /** The pass-through attributes follow the order of the keys, and every one
      is named after a key. */
  lemma {:induction false} PassThroughOrdered(o: Options, keys: seq<string>)
    requires RankedKeys(keys)
    ensures Ordered(PassThrough(o, keys))
    ensures forall i :: 0 <= i < |PassThrough(o, keys)| ==> PassThrough(o, keys)[i].name in keys
    decreases |keys|
  {
    if keys != [] {
      var init := keys[..|keys| - 1];
      var key := keys[|keys| - 1];
      var p := PassThrough(o, init);
      PassThroughOrdered(o, init);
      assert forall i :: 0 <= i < |p| ==> Rank(p[i].name) <= Rank(key) by {
        forall i | 0 <= i < |p| ensures Rank(p[i].name) <= Rank(key) {
          var k :| 0 <= k < |init| && init[k] == p[i].name;
          assert keys[k] == init[k];
        }
      }
      assert RanksWithin(PassOne(o, key), Rank(key), Rank(key));
      OrderedConcat(p, PassOne(o, key), 0, Rank(key), Rank(key));
      assert PassThrough(o, keys) == p + PassOne(o, key);
    }
  }

  lemma PassThroughKeyRanks()
    ensures forall i :: 0 <= i < |PassThroughKeys| ==> Rank(PassThroughKeys[i]) == 8 + i
  {
    forall i | 0 <= i < |PassThroughKeys|
      ensures Rank(PassThroughKeys[i]) == 8 + i
    {
      if i == 0 { assert PassThroughKeys[i] == "class"; }
      else if i == 1 { assert PassThroughKeys[i] == "dir"; }
      else if i == 2 { assert PassThroughKeys[i] == "id"; }
      else if i == 3 { assert PassThroughKeys[i] == "lang"; }
      else if i == 4 { assert PassThroughKeys[i] == "style"; }
      else if i == 5 { assert PassThroughKeys[i] == "title"; }
      else if i == 6 { assert PassThroughKeys[i] == "accesskey"; }
      else if i == 7 { assert PassThroughKeys[i] == "tabindex"; }
      else { assert PassThroughKeys[i] == "onclick"; }
    }
  }

  lemma PassThroughKeysOrdered(o: Options)
    ensures Ordered(PassThrough(o, PassThroughKeys)) && RanksWithin(PassThrough(o, PassThroughKeys), 8, 16)
  {
    PassThroughKeyRanks();
    PassThroughOrdered(o, PassThroughKeys);
  }

  /** The attributes come in the fixed order width, height, controls,
      autoplay, muted, loop, the posters, oncontextmenu, the pass-through keys
      in their list order, and data-setup, and no attribute has any other
      name; with the rules above this determines the whole list. */
  lemma AttributeOrder(file: MediaFile, width: Value, height: Value, options: Options)
    ensures Ordered(Attributes(file, width, height, options))
    ensures forall a :: a in Attributes(file, width, height, options) ==> Rank(a.name) < 17 || a.name == "data-setup"
  {
    var o := EffectiveOptions(options, file);
    var s := SizeAttributes(width, height);
    var f := FlagAttributes(o);
    var p := PosterAttributes(o, file.original) + [ContextMenu];
    var t := PassThrough(o, PassThroughKeys);
    SizesOrdered(width, height);
    FlagsOrdered(o);
    PostersOrdered(o, file.original);
    PassThroughKeysOrdered(o);
    assert Rank(DataSetup.name) == 17;
    OrderedConcat(s, f, 0, 2, 5);
    OrderedConcat(s + f, p, 0, 6, 7);
    OrderedConcat(s + f + p, t, 0, 8, 16);
    OrderedConcat(s + f + p + t, [DataSetup], 0, 17, 17);
    assert Attributes(file, width, height, options) == s + f + p + t + [DataSetup];
  }

  // ---------------------------------------------------------------------
  // The tracks

  /** The i-th resolved track is the i-th reference, resolved. */
  lemma {:induction false} TrackListAt(refs: seq<TrackReference>, ctx: TrackContext, i: nat)
    requires i < |refs|
    ensures TrackList(refs, ctx)[i] == ResolveTrack(refs[i], ctx)
    decreases |refs|
  {
    if i < |refs| - 1 {
      TrackListAt(refs[..|refs| - 1], ctx, i);
    }
  }

  lemma Associative(x: string, y: string, z: string)
    ensures x + y + z == x + (y + z)
  {
  }

  lemma {:induction false} ShowTracksAppend(a: seq<Track>, b: seq<Track>)
    ensures ShowTracks(a + b) == ShowTracks(a) + ShowTracks(b)
    decreases |b|
  {
    if b == [] {
      assert a + b == a;
    } else {
      var c := b[..|b| - 1];
      var last := ShowTrack(b[|b| - 1]);
      assert (a + b)[..|a + b| - 1] == a + c;
      assert ShowTracks(a + b) == ShowTracks(a + c) + last;
      assert ShowTracks(b) == ShowTracks(c) + last;
      ShowTracksAppend(a, c);
      Associative(ShowTracks(a), ShowTracks(c), last);
    }
  }

  lemma {:induction false} TrackListAppend(a: seq<TrackReference>, b: seq<TrackReference>, ctx: TrackContext)
    ensures TrackList(a + b, ctx) == TrackList(a, ctx) + TrackList(b, ctx)
    decreases |b|
  {
    if b == [] {
      assert a + b == a;
    } else {
      var c := b[..|b| - 1];
      assert (a + b)[..|a + b| - 1] == a + c;
      TrackListAppend(a, c, ctx);
    }
  }

  /** The track markup is one element per related reference, in lookup
      order: the elements of earlier references come first. */
  lemma TracksInLookupOrder(a: seq<TrackReference>, b: seq<TrackReference>, ctx: TrackContext)
    ensures ShowTracks(TrackList(a + b, ctx)) == ShowTracks(TrackList(a, ctx)) + ShowTracks(TrackList(b, ctx))
  {
    TrackListAppend(a, b, ctx);
    ShowTracksAppend(TrackList(a, ctx), TrackList(b, ctx));
  }

  /** One reference gives exactly one `<track>` element. */
  lemma SingleTrack(t: TrackReference, ctx: TrackContext)
    ensures ShowTracks(TrackList([t], ctx)) == ShowTrack(ResolveTrack(t, ctx))
  {
    assert [t][..0] == [];
  }

  /** With no `tracks` property there are no track elements; with one, one
      element per reference, each the reference resolved. */
  lemma TracksRule(original: OriginalFile, ctx: TrackContext)
    ensures Empty(original.tracksProperty) ==> TracksMarkup(original, ctx) == ""
    ensures !Empty(original.tracksProperty) ==>
              var ts := TrackList(original.trackReferences, ctx);
              && TracksMarkup(original, ctx) == ShowTracks(ts)
              && |ts| == |original.trackReferences|
              && forall i :: 0 <= i < |ts| ==> ts[i] == ResolveTrack(original.trackReferences[i], ctx)
  {
    var ts := TrackList(original.trackReferences, ctx);
    forall i | 0 <= i < |ts|
      ensures ts[i] == ResolveTrack(original.trackReferences[i], ctx)
    {
      TrackListAt(original.trackReferences, ctx, i);
    }
  }

  /** The kind is the track type, or `subtitles` when that is empty, and is
      never itself empty; label and language come from the language row when
      the uid is above 0 and has one, and are the defaults otherwise. */
  lemma ResolveTrackRule(t: TrackReference, ctx: TrackContext)
    ensures var r := ResolveTrack(t, ctx);
            && (Empty(t.trackType) ==> r.kind == "subtitles")
            && (!Empty(t.trackType) ==> r.kind == ToStr(t.trackType))
            && r.kind != "" && r.kind != "0"
            && (t.trackLanguage > 0 && t.trackLanguage in ctx.languages ==>
                  r.labelText == ctx.languages[t.trackLanguage].title
                  && r.srclang == ctx.languages[t.trackLanguage].isoCode)
            && (t.trackLanguage <= 0 || t.trackLanguage !in ctx.languages ==>
                  r.labelText == ctx.defaultLabel && r.srclang == ctx.defaultIsoCode)
            && r.src == t.publicUrl
  {
    if !Empty(t.trackType) {
      NonEmptyToStr(t.trackType);
    }
  }

  // ---------------------------------------------------------------------
  // The markup

  /** The attribute list is never empty, so the markup always has the form
      `<video ` + the attribute texts joined by single spaces + the source
      element with the escaped URL + the tracks + `</video>`. */
  lemma EnvelopeShape(attributes: seq<string>, url: string, mimeType: string, tracks: string)
    requires |attributes| > 0
    ensures Envelope(attributes, url, mimeType, tracks)
            == "<video " + Implode(" ", attributes) + "><source src=\"" + HtmlSpecialChars(url) + "\" type=\""
               + mimeType + "\">" + tracks + "</video>"
  {
    var x := Implode(" ", attributes);
    assert "<video" + (" " + x) == "<video " + x;
  }

  lemma MarkupShape(file: MediaFile, width: Value, height: Value, options: Options, relative: bool,
                    ctx: TrackContext)
    ensures RenderedHtml(file, width, height, options, relative, ctx)
            == "<video " + Implode(" ", Shown(Attributes(file, width, height, options)))
               + "><source src=\"" + HtmlSpecialChars(PublicUrl(file, relative)) + "\" type=\""
               + file.mimeType + "\">" + TracksMarkup(file.original, ctx) + "</video>"
  {
    FixedAttributesRule(file, width, height, options);
    EnvelopeShape(Shown(Attributes(file, width, height, options)), PublicUrl(file, relative), file.mimeType,
                  TracksMarkup(file.original, ctx));
  }

  // ---------------------------------------------------------------------
  // An end-to-end example

  /** An MP4 file with no poster and no tracks metadata, that is not a file
      reference. */
  function PlainMp4(url: string, relativeUrl: string): MediaFile {
    MediaFile("video/mp4", url, relativeUrl, None, OriginalFile(Null, [], Null, []))
  }

  lemma {:induction false} PassThroughNone(o: Options, keys: seq<string>)
    requires forall k :: k in keys ==> k !in o
    ensures PassThrough(o, keys) == []
    decreases |keys|
  {
    if keys != [] {
      assert keys[|keys| - 1] in keys;
      forall k | k in keys[..|keys| - 1] ensures k !in o {
        assert k in keys;
      }
      PassThroughNone(o, keys[..|keys| - 1]);
    }
  }

  lemma ExampleAttributes(url: string, relativeUrl: string)
    ensures Attributes(PlainMp4(url, relativeUrl), Int(320), Int(240), map["controls" := Bool(true)])
            == [Pair("width", "320"), Pair("height", "240"), Flag("controls"), ContextMenu, DataSetup]
  {
    var o: Options := map["controls" := Bool(true)];
    var file := PlainMp4(url, relativeUrl);
    assert EffectiveOptions(o, file) == o;
    ExampleSizes();
    ExampleFlags();
    assert PosterAttributes(o, file.original) == [];
    ExamplePassThrough();
    FiveAttributes(Pair("width", "320"), Pair("height", "240"), Flag("controls"), ContextMenu, DataSetup);
  }

  lemma FiveAttributes(w: Attribute, h: Attribute, c: Attribute, m: Attribute, d: Attribute)
    ensures [w, h] + [c] + ([] + [m]) + [] + [d] == [w, h, c, m, d]
  {
  }

  lemma ExamplePassThrough()
    ensures PassThrough(map["controls" := Bool(true)], PassThroughKeys) == []
  {
    var o: Options := map["controls" := Bool(true)];
    forall k | k in PassThroughKeys ensures k !in o {
      PassThroughNames(k);
    }
    PassThroughNone(o, PassThroughKeys);
  }

  lemma ExampleSizes()
    ensures SizeAttributes(Int(320), Int(240)) == [Pair("width", "320"), Pair("height", "240")]
  {
    assert Decimal(320) == "320" && Decimal(240) == "240";
  }

  lemma ExampleFlags()
    ensures FlagAttributes(map["controls" := Bool(true)]) == [Flag("controls")]
  {
    var o: Options := map["controls" := Bool(true)];
    assert "autoplay" !in o && "muted" !in o && "loop" !in o;
    NamedFourFlags(true, false, false, false, "controls");
  }

  lemma ExampleTexts()
    ensures Shown([Pair("width", "320"), Pair("height", "240"), Flag("controls"), ContextMenu, DataSetup])
            == ["width=\"320\"", "height=\"240\"", "controls", "oncontextmenu=\"return false;\"", "data-setup=\"{}\""]
  {
    var a := [Pair("width", "320"), Pair("height", "240"), Flag("controls"), ContextMenu, DataSetup];
    assert a[..1] == [] + [Pair("width", "320")];
    ShownSnoc([], Pair("width", "320"));
    ShownSnoc(a[..1], Pair("height", "240"));
    ShownSnoc(a[..2], Flag("controls"));
    ShownSnoc(a[..3], ContextMenu);
    ShownSnoc(a[..4], DataSetup);
    assert a == a[..4] + [DataSetup] && a[..4] == a[..3] + [ContextMenu];
    assert a[..3] == a[..2] + [Flag("controls")] && a[..2] == a[..1] + [Pair("height", "240")];
    assert Show(Pair("width", "320")) == "width=\"320\"";
    assert Show(Pair("height", "240")) == "height=\"240\"";
    AttributePrefixes();
  }

  lemma ExampleTail(x: string)
    ensures x + "\" type=\"" + "video/mp4" + "\">" + "" + "</video>" == x + "\" type=\"video/mp4\"></video>"
  {
  }

  /** The end-to-end case: an MP4 file of 320 by 240 with `controls`
      set, no poster and no tracks metadata gives, with a URL that needs no
      escaping, `<video width="320" height="240" controls
      oncontextmenu="return false;" data-setup="{}"><source src="URL"
      type="video/mp4"></video>`. */
  lemma PlainMp4Example(url: string, relativeUrl: string, ctx: TrackContext)
    requires forall i :: 0 <= i < |url| ==> !IsSpecial(url[i])
    ensures RenderedHtml(PlainMp4(url, relativeUrl), Int(320), Int(240), map["controls" := Bool(true)], false, ctx)
            == "<video "
               + Implode(" ", ["width=\"320\"", "height=\"240\"", "controls", "oncontextmenu=\"return false;\"",
                               "data-setup=\"{}\""])
               + "><source src=\"" + url + "\" type=\"video/mp4\"></video>"
  {
    var texts := ["width=\"320\"", "height=\"240\"", "controls", "oncontextmenu=\"return false;\"", "data-setup=\"{}\""];
    var head := "<video " + Implode(" ", texts) + "><source src=\"";
    var html := RenderedHtml(PlainMp4(url, relativeUrl), Int(320), Int(240), map["controls" := Bool(true)], false, ctx);
    ExampleAttributes(url, relativeUrl);
    ExampleTexts();
    assert html == Envelope(texts, url, "video/mp4", "");
    PlainTextUnchanged(url);
    EnvelopeShape(texts, url, "video/mp4", "");
    assert html == head + url + "\" type=\"" + "video/mp4" + "\">" + "" + "</video>";
    ExampleTail(head + url);
  }

  /** A `title` option holding a tag, such as `<script>`, reaches the video
      tag escaped. */
  lemma EscapedTitleExample(file: MediaFile, width: Value, height: Value, options: Options, name: string)
    requires forall i :: 0 <= i < |name| ==> !IsSpecial(name[i])
    requires "title" in options && options["title"] == Str("<" + name + ">")
    ensures Named(Attributes(file, width, height, options), "title") == [Pair("title", "&lt;" + name + "&gt;")]
  {
    PassThroughRule(file, width, height, options, "title");
    TagTextEscaped(name);
  }
}
