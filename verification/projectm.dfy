/** The projectM element (`plugin.c`): its property record, the
    "width,height" mesh-size property, the defaults it starts from, the
    format negotiation (`setup`) and the creation and destruction of the
    visualization engine handle in the GL start/stop hooks. */
module ProjectM {
  import opened Wrappers
  import opened CStrings
  import opened Caps
  import Config
  import GlErrors

  /* ----- property ids (enums.h) ----- */

  const PROP_PRESET_PATH: nat := 1
  const PROP_TEXTURE_DIR_PATH: nat := 2
  const PROP_BEAT_SENSITIVITY: nat := 3
  const PROP_HARD_CUT_DURATION: nat := 4
  const PROP_HARD_CUT_ENABLED: nat := 5
  const PROP_HARD_CUT_SENSITIVITY: nat := 6
  const PROP_SOFT_CUT_DURATION: nat := 7
  const PROP_PRESET_DURATION: nat := 8
  const PROP_MESH_SIZE: nat := 9
  const PROP_ASPECT_CORRECTION: nat := 10
  const PROP_EASTER_EGG: nat := 11
  const PROP_PRESET_LOCKED: nat := 12
  const PROP_SHUFFLE_PRESETS: nat := 13
  const PROP_ENABLE_PLAYLIST: nat := 14

  /* ----- OpenGL pixel formats used by setup ----- */

  const GL_RGBA: nat := 0x1908
  const GL_ABGR_EXT: nat := 0x8000

  /** An opaque visualization-engine instance. */
  type Handle = nat

  /** A property value as it crosses the property interface; a `gfloat`
      or `gdouble` is kept as a real. */
  datatype Value =
    | StringValue(s: Option<string>)
    | FloatValue(f: real)
    | DoubleValue(d: real)
    | BoolValue(b: bool)

  /** The instance record of the element with the private part
      (`gl_format`, `handle`) folded in. */
  datatype ProjectM = ProjectM(
    presetPath: Option<string>,
    textureDirPath: Option<string>,
    beatSensitivity: real,
    hardCutDuration: real,
    hardCutEnabled: bool,
    hardCutSensitivity: real,
    softCutDuration: real,
    presetDuration: real,
    meshWidth: ulong,
    meshHeight: ulong,
    aspectCorrection: bool,
    easterEgg: real,
    presetLocked: bool,
    shufflePresets: bool,
    glFormat: nat,
    handle: Option<Handle>)

  /* ----- the installed properties (class_init) ----- */

  /** The declaration of an installed property: its type, range and default. */
  datatype ParamSpec =
    | StringSpec(defaultString: Option<string>)
    | FloatSpec(min: real, max: real, defaultReal: real)
    | DoubleSpec(min: real, max: real, defaultReal: real)
    | BoolSpec(defaultBool: bool)

  /** The property table installed by the class; shuffle-presets and
      enable-playlist have ids but are not installed. */
  function Spec(id: nat): Option<ParamSpec> {
    if id == PROP_PRESET_PATH then Some(StringSpec(Config.DEFAULT_PRESET_PATH))
    else if id == PROP_TEXTURE_DIR_PATH then Some(StringSpec(Config.DEFAULT_TEXTURE_DIR_PATH))
    else if id == PROP_BEAT_SENSITIVITY then Some(FloatSpec(0.0, 5.0, Config.DEFAULT_BEAT_SENSITIVITY))
    else if id == PROP_HARD_CUT_DURATION then Some(DoubleSpec(0.0, 999999.0, Config.DEFAULT_HARD_CUT_DURATION))
    else if id == PROP_HARD_CUT_ENABLED then Some(BoolSpec(Config.DEFAULT_HARD_CUT_ENABLED))
    else if id == PROP_HARD_CUT_SENSITIVITY then Some(FloatSpec(0.0, 1.0, Config.DEFAULT_HARD_CUT_SENSITIVITY))
    else if id == PROP_SOFT_CUT_DURATION then Some(DoubleSpec(0.0, 999999.0, Config.DEFAULT_SOFT_CUT_DURATION))
    else if id == PROP_PRESET_DURATION then Some(DoubleSpec(0.0, 999999.0, Config.DEFAULT_PRESET_DURATION))
    else if id == PROP_MESH_SIZE then Some(StringSpec(Some(Config.DEFAULT_MESH_SIZE)))
    else if id == PROP_ASPECT_CORRECTION then Some(BoolSpec(Config.DEFAULT_ASPECT_CORRECTION))
    else if id == PROP_EASTER_EGG then Some(FloatSpec(0.0, 1.0, Config.DEFAULT_EASTER_EGG))
    else if id == PROP_PRESET_LOCKED then Some(BoolSpec(Config.DEFAULT_PRESET_LOCKED))
    else None
  }

  /** A value the property system hands to `set_property` for `spec`: of
      the declared type and, for numbers, within the declared range. */
  predicate Fits(spec: ParamSpec, v: Value) {
    match spec
    case StringSpec(_) => v.StringValue?
    case FloatSpec(lo, hi, _) => v.FloatValue? && lo <= v.f <= hi
    case DoubleSpec(lo, hi, _) => v.DoubleValue? && lo <= v.d <= hi
    case BoolSpec(_) => v.BoolValue?
  }

  /** The default of `spec` as a value. */
  function DefaultValue(spec: ParamSpec): Value {
    match spec
    case StringSpec(s) => StringValue(s)
    case FloatSpec(_, _, d) => FloatValue(d)
    case DoubleSpec(_, _, d) => DoubleValue(d)
    case BoolSpec(b) => BoolValue(b)
  }

  /** Every numeric field lies within its declared range. */
  predicate WithinSpecs(p: ProjectM) {
    && 0.0 <= p.beatSensitivity <= 5.0
    && 0.0 <= p.hardCutDuration <= 999999.0
    && 0.0 <= p.hardCutSensitivity <= 1.0
    && 0.0 <= p.softCutDuration <= 999999.0
    && 0.0 <= p.presetDuration <= 999999.0
    && 0.0 <= p.easterEgg <= 1.0
  }

  /** Every installed default is a value its own declaration accepts. */
  lemma DefaultsFitSpecs(id: nat)
    requires Spec(id).Some?
    ensures Fits(Spec(id).value, DefaultValue(Spec(id).value))
  {
  }

  /* ----- mesh size ----- */

  /** The mesh-size text: `g_strsplit (text, ",", 2)` must give exactly two
      tokens, each read by `atoi` and stored into a `gint` then a `gulong`.
      A `NULL` text gives no tokens. */
  function ParseMeshSize(text: Option<string>): (r: Option<(ulong, ulong)>)
    ensures r.Some? <==> text.Some? && ',' in text.value
    ensures r.Some? ==>
              var parts := SplitFirstComma(text.value);
              && (0 <= LeadingInteger(parts[0]) <= INT_MAX ==> r.value.0 == LeadingInteger(parts[0]))
              && (0 <= LeadingInteger(parts[1]) <= INT_MAX ==> r.value.1 == LeadingInteger(parts[1]))
              && (InInt(LeadingInteger(parts[0])) ==> r.value.0 == ToULong(LeadingInteger(parts[0])))
              && (InInt(LeadingInteger(parts[1])) ==> r.value.1 == ToULong(LeadingInteger(parts[1])))
  {
    if text.None? then None
    else
      var parts := SplitFirstComma(text.value);
      if |parts| == 2 then Some((ToULong(Atoi(parts[0])), ToULong(Atoi(parts[1]))))
      else None
  }

  /** A negative side wraps into the `gulong`: "-1,5" gives a width of
      2^64 - 1 and a height of 5. */
  lemma NegativeMeshSideWraps()
    ensures ParseMeshSize(Some("-1,5")) == Some((ULONG_MODULUS - 1, 5))
  {
    var text := "-1,5";
    assert "-1" + [','] + "5" == text;
    SplitAtKnownComma("-1", "5");
    assert text[2] == ',';
    LeadingMinusOneAndFive();
    var r := ParseMeshSize(Some(text));
    assert r.value.0 == ToULong(-1);
    assert r.value.1 == 5;
  }

  lemma LeadingMinusOneAndFive()
    ensures LeadingInteger("-1") == -1 && LeadingInteger("5") == 5
  {
    assert Numeral(1, 10) == "1";
    assert Numeral(5, 10) == "5";
    assert ['-'] + Numeral(1, 10) == "-1";
    LeadingIntegerOfNegated(1);
    LeadingIntegerOfNumeral(5);
  }

  /** The `PROP_MESH_SIZE` branch of `set_property` (and the same code in
      `init`): both dimensions change together when the text splits in two,
      and nothing changes otherwise. */
  function ApplyMeshSize(p: ProjectM, text: Option<string>): (r: ProjectM)
    ensures r == p.(meshWidth := r.meshWidth, meshHeight := r.meshHeight)
    ensures ParseMeshSize(text).Some? ==> (r.meshWidth, r.meshHeight) == ParseMeshSize(text).value
    ensures ParseMeshSize(text).None? ==> r == p
  {
    match ParseMeshSize(text)
    case Some(wh) => p.(meshWidth := wh.0, meshHeight := wh.1)
    case None => p
  }

  /** The `PROP_MESH_SIZE` branch of `get_property`: `"%lu,%lu"`. */
  function MeshSizeText(p: ProjectM): (s: string)
    ensures ',' in s
    ensures SplitFirstComma(s) == [Numeral(p.meshWidth, 10), Numeral(p.meshHeight, 10)]
  {
    var w, h := Numeral(p.meshWidth, 10), Numeral(p.meshHeight, 10);
    var s := w + [','] + h;
    assert s[|w|] == ',';
    assert ',' !in w by {
      forall i | 0 <= i < |w| ensures w[i] != ',' {
        assert IsDigitIn(w[i], 10);
      }
    }
    SplitAtKnownComma(w, h);
    s
  }

  /** Splitting `w + "," + h` at the first comma gives `w` and `h` back when
      `w` holds no comma. */
  lemma SplitAtKnownComma(w: string, h: string)
    requires ',' !in w
    ensures SplitFirstComma(w + [','] + h) == [w, h]
  {
    var s := w + [','] + h;
    var parts := SplitFirstComma(s);
    assert s[|w|] == ',';
    assert |parts| == 2;
    assert |parts[0]| == |w|;
    assert parts[0] == s[..|w|] == w;
    assert parts[1] == s[|w| + 1..] == h;
  }

  /* ----- instance initialisation ----- */

  /** A freshly allocated instance: every field zero, `FALSE` or `NULL`. */
  const Zeroed: ProjectM := ProjectM(None, None, 0.0, 0.0, false, 0.0, 0.0, 0.0, 0, 0,
                                     false, 0.0, false, false, 0, None)

  /** `gst_projectm_init`: the defaults of the configuration table, the
      mesh size parsed from its default text, and no engine handle. */
  function Init(): (p: ProjectM)
    ensures p.presetPath.None? && p.textureDirPath.None?
    ensures p.beatSensitivity == 1.0 && p.hardCutSensitivity == 1.0
    ensures p.hardCutDuration == 3.0 && p.softCutDuration == 3.0 && p.presetDuration == 0.0
    ensures !p.hardCutEnabled && p.aspectCorrection && p.presetLocked && p.easterEgg == 0.0
    ensures p.meshWidth == 48 && p.meshHeight == 32
    ensures p.handle.None?
    ensures WithinSpecs(p)
  {
    DefaultMeshSizeParses();
    var p := Zeroed.(
      presetPath := Config.DEFAULT_PRESET_PATH,
      textureDirPath := Config.DEFAULT_TEXTURE_DIR_PATH,
      beatSensitivity := Config.DEFAULT_BEAT_SENSITIVITY,
      hardCutDuration := Config.DEFAULT_HARD_CUT_DURATION,
      hardCutEnabled := Config.DEFAULT_HARD_CUT_ENABLED,
      hardCutSensitivity := Config.DEFAULT_HARD_CUT_SENSITIVITY,
      softCutDuration := Config.DEFAULT_SOFT_CUT_DURATION,
      presetDuration := Config.DEFAULT_PRESET_DURATION);
    ApplyMeshSize(p, Some(Config.DEFAULT_MESH_SIZE)).(
      aspectCorrection := Config.DEFAULT_ASPECT_CORRECTION,
      easterEgg := Config.DEFAULT_EASTER_EGG,
      presetLocked := Config.DEFAULT_PRESET_LOCKED,
      handle := None)
  }

  /** The default mesh text "48,32" is well formed: it splits in two and
      reads as 48 by 32. */
  lemma DefaultMeshSizeParses()
    ensures SplitFirstComma(Config.DEFAULT_MESH_SIZE) == ["48", "32"]
    ensures ParseMeshSize(Some(Config.DEFAULT_MESH_SIZE)) == Some((48, 32))
  {
    NumeralTwoDigits(48);
    NumeralTwoDigits(32);
    var p := Zeroed.(meshWidth := 48, meshHeight := 32);
    assert MeshSizeText(p) == Config.DEFAULT_MESH_SIZE;
    MeshTextOf(48, 32);
  }

  /** Reading the mesh text of any instance whose dimensions an `int` can
      hold yields those dimensions. */
  lemma MeshTextOf(w: ulong, h: ulong)
    requires w <= INT_MAX && h <= INT_MAX
    ensures ParseMeshSize(Some(MeshSizeText(Zeroed.(meshWidth := w, meshHeight := h)))) == Some((w, h))
  {
    var p := Zeroed.(meshWidth := w, meshHeight := h);
    var text := MeshSizeText(p);
    var parts := SplitFirstComma(text);
    assert parts == [Numeral(w, 10), Numeral(h, 10)];
    LeadingIntegerOfNumeral(w);
    LeadingIntegerOfNumeral(h);
    var r := ParseMeshSize(Some(text));
    assert r.value.0 == w && r.value.1 == h;
  }

  /* ----- properties ----- */

  /** `gst_projectm_set_property`: the field named by `id` takes the value;
      an id outside the switch (shuffle-presets, enable-playlist, any other)
      changes nothing. */
  function SetProperty(p: ProjectM, id: nat, v: Value): (r: ProjectM)
    requires Spec(id).Some? ==> Fits(Spec(id).value, v)
    ensures Spec(id).None? ==> r == p
    ensures WithinSpecs(p) ==> WithinSpecs(r)
    ensures r.handle == p.handle && r.glFormat == p.glFormat && r.shufflePresets == p.shufflePresets
  {
    if id == PROP_PRESET_PATH then p.(presetPath := v.s)
    else if id == PROP_TEXTURE_DIR_PATH then p.(textureDirPath := v.s)
    else if id == PROP_BEAT_SENSITIVITY then p.(beatSensitivity := v.f)
    else if id == PROP_HARD_CUT_DURATION then p.(hardCutDuration := v.d)
    else if id == PROP_HARD_CUT_ENABLED then p.(hardCutEnabled := v.b)
    else if id == PROP_HARD_CUT_SENSITIVITY then p.(hardCutSensitivity := v.f)
    else if id == PROP_SOFT_CUT_DURATION then p.(softCutDuration := v.d)
    else if id == PROP_PRESET_DURATION then p.(presetDuration := v.d)
    else if id == PROP_MESH_SIZE then ApplyMeshSize(p, v.s)
    else if id == PROP_ASPECT_CORRECTION then p.(aspectCorrection := v.b)
    else if id == PROP_EASTER_EGG then p.(easterEgg := v.f)
    else if id == PROP_PRESET_LOCKED then p.(presetLocked := v.b)
    else p
  }

  /** `gst_projectm_get_property`: the field named by `id` as a value of
      the declared type, `None` for an id outside the switch. */
  function GetProperty(p: ProjectM, id: nat): (r: Option<Value>)
    ensures r.Some? <==> Spec(id).Some?
    ensures r.Some? ==> DefaultValue(Spec(id).value).StringValue? == r.value.StringValue?
    ensures r.Some? ==> DefaultValue(Spec(id).value).FloatValue? == r.value.FloatValue?
    ensures r.Some? ==> DefaultValue(Spec(id).value).DoubleValue? == r.value.DoubleValue?
    ensures WithinSpecs(p) && r.Some? ==> Fits(Spec(id).value, r.value)
  {
    if id == PROP_PRESET_PATH then Some(StringValue(p.presetPath))
    else if id == PROP_TEXTURE_DIR_PATH then Some(StringValue(p.textureDirPath))
    else if id == PROP_BEAT_SENSITIVITY then Some(FloatValue(p.beatSensitivity))
    else if id == PROP_HARD_CUT_DURATION then Some(DoubleValue(p.hardCutDuration))
    else if id == PROP_HARD_CUT_ENABLED then Some(BoolValue(p.hardCutEnabled))
    else if id == PROP_HARD_CUT_SENSITIVITY then Some(FloatValue(p.hardCutSensitivity))
    else if id == PROP_SOFT_CUT_DURATION then Some(DoubleValue(p.softCutDuration))
    else if id == PROP_PRESET_DURATION then Some(DoubleValue(p.presetDuration))
    else if id == PROP_MESH_SIZE then Some(StringValue(Some(MeshSizeText(p))))
    else if id == PROP_ASPECT_CORRECTION then Some(BoolValue(p.aspectCorrection))
    else if id == PROP_EASTER_EGG then Some(FloatValue(p.easterEgg))
    else if id == PROP_PRESET_LOCKED then Some(BoolValue(p.presetLocked))
    else None
  }

  /** The mesh-size branches of the two property functions. */
  lemma MeshSizeBranches(p: ProjectM, v: Value)
    requires v.StringValue?
    ensures SetProperty(p, PROP_MESH_SIZE, v) == ApplyMeshSize(p, v.s)
    ensures GetProperty(p, PROP_MESH_SIZE) == Some(StringValue(Some(MeshSizeText(p))))
  {
    var t := MeshSizeText(p);
    assert GetProperty(p, PROP_MESH_SIZE) == Some(StringValue(Some(t)));
  }

  /** Setting any installed property other than mesh-size and reading it
      back gives the value set. */
  lemma SetThenGet(p: ProjectM, id: nat, v: Value)
    requires Spec(id).Some? && id != PROP_MESH_SIZE
    requires Fits(Spec(id).value, v)
    ensures GetProperty(SetProperty(p, id, v), id) == Some(v)
  {
  }

  /** The fields `GetProperty (_, id)` reads agree in `p` and `q`. */
  predicate SameField(p: ProjectM, q: ProjectM, id: nat) {
    if id == PROP_PRESET_PATH then p.presetPath == q.presetPath
    else if id == PROP_TEXTURE_DIR_PATH then p.textureDirPath == q.textureDirPath
    else if id == PROP_BEAT_SENSITIVITY then p.beatSensitivity == q.beatSensitivity
    else if id == PROP_HARD_CUT_DURATION then p.hardCutDuration == q.hardCutDuration
    else if id == PROP_HARD_CUT_ENABLED then p.hardCutEnabled == q.hardCutEnabled
    else if id == PROP_HARD_CUT_SENSITIVITY then p.hardCutSensitivity == q.hardCutSensitivity
    else if id == PROP_SOFT_CUT_DURATION then p.softCutDuration == q.softCutDuration
    else if id == PROP_PRESET_DURATION then p.presetDuration == q.presetDuration
    else if id == PROP_MESH_SIZE then p.meshWidth == q.meshWidth && p.meshHeight == q.meshHeight
    else if id == PROP_ASPECT_CORRECTION then p.aspectCorrection == q.aspectCorrection
    else if id == PROP_EASTER_EGG then p.easterEgg == q.easterEgg
    else if id == PROP_PRESET_LOCKED then p.presetLocked == q.presetLocked
    else true
  }

  /** `get_property` reads one field per id and nothing else. */
  lemma GetReadsOneField(p: ProjectM, q: ProjectM, id: nat)
    requires SameField(p, q, id)
    ensures GetProperty(p, id) == GetProperty(q, id)
  {
    if id == PROP_MESH_SIZE {
      assert MeshSizeText(p) == MeshSizeText(q) by {
        assert p.(meshWidth := q.meshWidth, meshHeight := q.meshHeight) == p;
      }
    }
  }

  /** `set_property` writes one field per id and nothing else. */
  lemma SetWritesOneField(p: ProjectM, id: nat, v: Value, other: nat)
    requires Spec(id).Some? ==> Fits(Spec(id).value, v)
    requires other != id
    ensures SameField(SetProperty(p, id, v), p, other)
  {
    var r := SetProperty(p, id, v);
    if id == PROP_MESH_SIZE {
      MeshSizeBranches(p, v);
      assert r == p.(meshWidth := r.meshWidth, meshHeight := r.meshHeight);
    } else if id == PROP_PRESET_PATH {
      assert r == p.(presetPath := v.s);
    } else if id == PROP_TEXTURE_DIR_PATH {
      assert r == p.(textureDirPath := v.s);
    } else if id == PROP_BEAT_SENSITIVITY {
      assert r == p.(beatSensitivity := v.f);
    } else if id == PROP_HARD_CUT_DURATION {
      assert r == p.(hardCutDuration := v.d);
    } else if id == PROP_HARD_CUT_ENABLED {
      assert r == p.(hardCutEnabled := v.b);
    } else if id == PROP_HARD_CUT_SENSITIVITY {
      assert r == p.(hardCutSensitivity := v.f);
    } else if id == PROP_SOFT_CUT_DURATION {
      assert r == p.(softCutDuration := v.d);
    } else if id == PROP_PRESET_DURATION {
      assert r == p.(presetDuration := v.d);
    } else if id == PROP_ASPECT_CORRECTION {
      assert r == p.(aspectCorrection := v.b);
    } else if id == PROP_EASTER_EGG {
      assert r == p.(easterEgg := v.f);
    } else if id == PROP_PRESET_LOCKED {
      assert r == p.(presetLocked := v.b);
    } else {
      assert r == p;
    }
  }

  /** Setting one property leaves every other property as it was. */
  lemma SetLeavesOthers(p: ProjectM, id: nat, v: Value, other: nat)
    requires Spec(id).Some? ==> Fits(Spec(id).value, v)
    requires other != id
    ensures GetProperty(SetProperty(p, id, v), other) == GetProperty(p, other)
  {
    SetWritesOneField(p, id, v, other);
    GetReadsOneField(SetProperty(p, id, v), p, other);
  }

  /** Mesh-size round trip: the text `get_property` produces, given back to
      `set_property`, restores both dimensions when they fit in an `int`. */
  lemma MeshSizeRoundTrip(p: ProjectM, q: ProjectM)
    requires p.meshWidth <= INT_MAX && p.meshHeight <= INT_MAX
    ensures var r := SetProperty(q, PROP_MESH_SIZE, GetProperty(p, PROP_MESH_SIZE).value);
            r.meshWidth == p.meshWidth && r.meshHeight == p.meshHeight
  {
    var text := MeshSizeText(p);
    MeshSizeBranches(q, StringValue(Some(text)));
    MeshSizeBranches(p, StringValue(Some(text)));
    MeshTextOf(p.meshWidth, p.meshHeight);
    assert text == MeshSizeText(Zeroed.(meshWidth := p.meshWidth, meshHeight := p.meshHeight));
  }

  /** Writing back what was read leaves an instance unchanged, for mesh
      dimensions an `int` can hold. */
  lemma GetThenSetIsIdentity(p: ProjectM, id: nat)
    requires Spec(id).Some? && WithinSpecs(p)
    requires id == PROP_MESH_SIZE ==> p.meshWidth <= INT_MAX && p.meshHeight <= INT_MAX
    ensures SetProperty(p, id, GetProperty(p, id).value) == p
  {
    if id == PROP_MESH_SIZE {
      MeshSizeRoundTrip(p, p);
    }
  }

  /** The width a read and write-back of the mesh text leaves is the
      printed width as `atoi` reads it into an `int`, stored into a
      `gulong`. */
  lemma MeshWidthReadBack(p: ProjectM)
    requires p.meshWidth <= LONG_MAX
    ensures var r := SetProperty(p, PROP_MESH_SIZE, GetProperty(p, PROP_MESH_SIZE).value);
            r.meshWidth == ToULong(ToInt(p.meshWidth))
  {
    var text := MeshSizeText(p);
    MeshSizeBranches(p, StringValue(Some(text)));
    var parts := SplitFirstComma(text);
    AtoiOfNumeral(p.meshWidth);
    assert ParseMeshSize(Some(text)).value.0 == ToULong(Atoi(parts[0]));
  }

  /** 2^31 becomes -2^31 as an `int` and 2^64 - 2^31 as a `gulong`. */
  lemma Width2p31(w: int)
    requires w == 0x8000_0000
    ensures ToULong(ToInt(w)) == ULONG_MODULUS - 0x8000_0000
  {
  }

  /** Above `INT_MAX` the round trip breaks: a width of 2^31 is printed as
      "2147483648", which `atoi` reads as the `int` -2^31, stored into the
      `gulong` as 2^64 - 2^31. */
  lemma MeshSizeRoundTripFailsAboveIntMax(p: ProjectM)
    requires p.meshWidth == 0x8000_0000
    ensures var r := SetProperty(p, PROP_MESH_SIZE, GetProperty(p, PROP_MESH_SIZE).value);
            r.meshWidth == ULONG_MODULUS - 0x8000_0000
  {
    MeshWidthReadBack(p);
    Width2p31(p.meshWidth);
  }

  /** "64,48" sets a 64 by 48 mesh and reads back as "64,48". */
  lemma MeshSize64By48(p: ProjectM)
    ensures var r := SetProperty(p, PROP_MESH_SIZE, StringValue(Some("64,48")));
            r.meshWidth == 64 && r.meshHeight == 48 && MeshSizeText(r) == "64,48"
  {
    var text := "64,48";
    MeshSizeBranches(p, StringValue(Some(text)));
    MeshText64By48();
    var r := SetProperty(p, PROP_MESH_SIZE, StringValue(Some(text)));
    assert r == ApplyMeshSize(p, Some(text));
    MeshSizeTextReadsMesh(r, Zeroed.(meshWidth := 64, meshHeight := 48));
  }

  /** The text of a 64 by 48 mesh is "64,48", and it reads back as such. */
  lemma MeshText64By48()
    ensures MeshSizeText(Zeroed.(meshWidth := 64, meshHeight := 48)) == "64,48"
    ensures ParseMeshSize(Some("64,48")) == Some((64, 48))
  {
    var z := Zeroed.(meshWidth := 64, meshHeight := 48);
    NumeralTwoDigits(64);
    NumeralTwoDigits(48);
    assert Numeral(64, 10) == "64";
    assert Numeral(48, 10) == "48";
    assert MeshSizeText(z) == Numeral(64, 10) + [','] + Numeral(48, 10);
    assert "64" + [','] + "48" == "64,48";
    MeshTextOf(64, 48);
  }

  /** The mesh text depends on the mesh dimensions alone. */
  lemma MeshSizeTextReadsMesh(p: ProjectM, q: ProjectM)
    requires p.meshWidth == q.meshWidth && p.meshHeight == q.meshHeight
    ensures MeshSizeText(p) == MeshSizeText(q)
  {
  }

  /* ----- setup ----- */

  /** The result of `setup`: the instance (with its GL pixel format), the
      samples-per-frame stored on the base element, and the verdict. */
  datatype SetupResult = SetupResult(plugin: ProjectM, reqSpf: int, ok: bool)

  /** `gst_projectm_setup`: `req_spf = channels * rate * 2 / fps_n` in C
      integer arithmetic (set before the format is examined), then ABGR
      maps to `GL_RGBA`, RGBA to `GL_ABGR_EXT`, and every other format is
      refused. */
  function Setup(p: ProjectM, a: AudioInfo, v: VideoInfo): (r: SetupResult)
    requires v.fpsN != 0
    requires InInt(a.channels * a.rate) && InInt(a.channels * a.rate * 2)
    ensures r.ok <==> v.format == Abgr || v.format == Rgba
    ensures v.format == Abgr ==> r.plugin == p.(glFormat := GL_RGBA)
    ensures v.format == Rgba ==> r.plugin == p.(glFormat := GL_ABGR_EXT)
    ensures !r.ok ==> r.plugin == p
    ensures var n := a.channels * a.rate * 2;
            0 <= n && 0 < v.fpsN ==> r.reqSpf * v.fpsN <= n < (r.reqSpf + 1) * v.fpsN
  {
    var spf := CDiv(a.channels * a.rate * 2, v.fpsN);
    match v.format
    case Abgr => SetupResult(p.(glFormat := GL_RGBA), spf, true)
    case Rgba => SetupResult(p.(glFormat := GL_ABGR_EXT), spf, true)
    case OtherVideoFormat(_) => SetupResult(p, spf, false)
  }

  /** Everything the pad templates admit passes `setup`, at any non-zero
      framerate for which `channels * rate * 2` fits in a `gint`: the
      samples per frame are that product over the framerate numerator,
      rounded down. */
  lemma TemplatesPassSetup(p: ProjectM, a: AudioInfo, v: VideoInfo)
    requires AdmitsAudio(AudioSinkCap(0).value, a)
    requires AdmitsVideo(VideoSrcCap(0).value, v) && v.fpsN != 0
    requires InInt(a.channels * a.rate * 2)
    ensures InInt(a.channels * a.rate)
    ensures Setup(p, a, v).ok
    ensures Setup(p, a, v).reqSpf == a.channels * a.rate * 2 / v.fpsN
  {
    AudioSinkCapAdmits(a);
    VideoSrcCapAdmits(v);
    ProductAtLeastOne(a.channels, a.rate);
    var n := a.channels * a.rate;
    assert 0 < v.fpsN;
    assert Setup(p, a, v).reqSpf == CDiv(n * 2, v.fpsN);
    CDivOfNonnegative(n * 2, v.fpsN);
  }

  /** The audio template admits rates at which `channels * rate * 2`
      overflows a `gint`: stereo at G_MAXINT Hz. */
  lemma TemplateAdmitsOverflow()
    ensures var a := AudioInfo(S16_NE, "interleaved", 2, G_MAXINT, 3);
            AdmitsAudio(AudioSinkCap(0).value, a) && !InInt(a.channels * a.rate * 2)
  {
    AudioSinkCapAdmits(AudioInfo(S16_NE, "interleaved", 2, G_MAXINT, 3));
  }

  /** Stereo at 48000 Hz, which the audio template admits, gives
      192000 / fps_n samples per frame. */
  lemma Stereo48000Setup(p: ProjectM, v: VideoInfo)
    requires AdmitsVideo(VideoSrcCap(0).value, v) && v.fpsN != 0
    ensures var a := AudioInfo(S16_NE, "interleaved", 2, 48000, 3);
            Setup(p, a, v).ok && Setup(p, a, v).reqSpf == 192000 / v.fpsN
  {
    AudioSinkCapAdmits48000();
    TemplatesPassSetup(p, AudioInfo(S16_NE, "interleaved", 2, 48000, 3), v);
  }

  /* ----- engine handle ----- */

  /** `gst_projectm_gl_start`: create the engine only when there is none
      (`created` is what creation returns); fail when creation returns
      `NULL`. Success means a handle exists afterwards. */
  function GlStart(p: ProjectM, created: Option<Handle>): (r: (ProjectM, bool))
    ensures r.1 <==> r.0.handle.Some?
    ensures p.handle.Some? ==> r == (p, true)
    ensures p.handle.None? ==> r.0 == p.(handle := created)
  {
    if p.handle.None? then (p.(handle := created), created.Some?)
    else (p, true)
  }

  /** `gst_projectm_gl_stop`: destroy the engine if there is one (returned
      as the handle destroyed) and leave none. */
  function GlStop(p: ProjectM): (r: (ProjectM, Option<Handle>))
    ensures r.0 == p.(handle := None)
    ensures r.1 == p.handle
  {
    if p.handle.Some? then (p.(handle := None), p.handle) else (p, None)
  }

  /** A second stop destroys nothing. */
  lemma GlStopTwice(p: ProjectM)
    ensures GlStop(GlStop(p).0) == (GlStop(p).0, None)
  {
  }

  /* ----- render ----- */

  /** What `gst_projectm_render` does after the engine drew a frame: it
      consults the GL error decoder, which aborts the process on any error
      code; when it returns, it returns `TRUE`. */
  datatype RenderOutcome = Rendered(result: bool) | Aborted(message: string)

  function Render(p: ProjectM, glErrorCode: uint32): (r: RenderOutcome)
    ensures r.Rendered? <==> glErrorCode == GlErrors.GL_NO_ERROR
    ensures r.Rendered? ==> r.result
  {
    match GlErrors.ErrorHandler(glErrorCode)
    case Continue => Rendered(true)
    case Abort(m) => Aborted(m)
  }
}
