/**
 * The material dumper: the defaults a material type's Lua script
 * declares, the cache of those defaults per type, the comparison of a
 * property with its default, and the text of a `.mtrl` dump.
 *
 * The script file is I/O: a parse is given the three lists of matches
 * its patterns find, in file order, or `None` when the file could not be
 * opened; whether the file exists is a parameter. The dump returns the
 * path and the text it writes, or `None` when the output file could not
 * be opened.
 */
module MaterialDump {
  import opened Wrappers
  import opened Numeric
  import Gpu
  import opened MaterialStrings

  /** A default a script declares: a float, a boolean or three floats. */
  datatype DefaultValue = FloatDefault(f: real) | BoolDefault(b: bool) | Float3Default(v: Gpu.Vec3)

  type DefaultsMap = map<string, DefaultValue>

  /**
   * The matches of `props:get_float3`, `props:get_float` and
   * `props:get_bool` in a script, each list in file order, with the
   * numbers already converted.
   */
  datatype LuaMatches = LuaMatches(
    float3s: seq<(string, Gpu.Vec3)>,
    floats: seq<(string, real)>,
    bools: seq<(string, bool)>)

  /** Some entry of `s` carries `name`. */
  predicate Named<T>(s: seq<(string, T)>, name: string) {
    exists j :: 0 <= j < |s| && s[j].0 == name
  }

  /** Entry `j` is the last one of `s` carrying `name`. */
  predicate IsLast<T>(s: seq<(string, T)>, j: int, name: string) {
    0 <= j < |s| && s[j].0 == name && forall k :: j < k < |s| ==> s[k].0 != name
  }

  /** Entry `j` is the first one of `s` carrying `name`. */
  predicate IsFirst<T>(s: seq<(string, T)>, j: int, name: string) {
    0 <= j < |s| && s[j].0 == name && forall k :: 0 <= k < j ==> s[k].0 != name
  }

  /** The float3 pass: every match is stored, a later one replacing an earlier. */
  function Float3Pass(m: DefaultsMap, s: seq<(string, Gpu.Vec3)>): DefaultsMap {
    if |s| == 0 then m
    else Float3Pass(m, s[..|s| - 1])[s[|s| - 1].0 := Float3Default(s[|s| - 1].1)]
  }

  /** The float pass: a match is stored only when its name is not there yet. */
  function FloatPass(m: DefaultsMap, s: seq<(string, real)>): DefaultsMap {
    if |s| == 0 then m
    else
      var p := FloatPass(m, s[..|s| - 1]);
      if s[|s| - 1].0 in p then p else p[s[|s| - 1].0 := FloatDefault(s[|s| - 1].1)]
  }

  /** The bool pass: every match is stored, replacing whatever was there. */
  function BoolPass(m: DefaultsMap, s: seq<(string, bool)>): DefaultsMap {
    if |s| == 0 then m
    else BoolPass(m, s[..|s| - 1])[s[|s| - 1].0 := BoolDefault(s[|s| - 1].1)]
  }

  /** `parse_lua_defaults`: the three passes in order; an unopened file gives no defaults. */
  function LuaDefaults(script: Option<LuaMatches>): DefaultsMap {
    match script
    case None => map[]
    case Some(l) => BoolPass(FloatPass(Float3Pass(map[], l.float3s), l.floats), l.bools)
  }

  lemma {:induction false} Float3PassLast(m: DefaultsMap, s: seq<(string, Gpu.Vec3)>, name: string)
    ensures name in Float3Pass(m, s) <==> name in m || Named(s, name)
    ensures !Named(s, name) && name in m ==> Float3Pass(m, s)[name] == m[name]
    ensures forall j :: IsLast(s, j, name) ==> Float3Pass(m, s)[name] == Float3Default(s[j].1)
  {
    if |s| > 0 {
      var p := s[..|s| - 1];
      Float3PassLast(m, p, name);
      assert forall j :: 0 <= j < |p| ==> p[j] == s[j];
      assert Named(s, name) <==> Named(p, name) || s[|s| - 1].0 == name;
    }
  }

  lemma {:induction false} BoolPassLast(m: DefaultsMap, s: seq<(string, bool)>, name: string)
    ensures name in BoolPass(m, s) <==> name in m || Named(s, name)
    ensures !Named(s, name) && name in m ==> BoolPass(m, s)[name] == m[name]
    ensures forall j :: IsLast(s, j, name) ==> BoolPass(m, s)[name] == BoolDefault(s[j].1)
  {
    if |s| > 0 {
      var p := s[..|s| - 1];
      BoolPassLast(m, p, name);
      assert forall j :: 0 <= j < |p| ==> p[j] == s[j];
      assert Named(s, name) <==> Named(p, name) || s[|s| - 1].0 == name;
    }
  }

  lemma {:induction false} FloatPassFirst(m: DefaultsMap, s: seq<(string, real)>, name: string)
    ensures name in FloatPass(m, s) <==> name in m || Named(s, name)
    ensures name in m ==> FloatPass(m, s)[name] == m[name]
    ensures name !in m ==> forall j :: IsFirst(s, j, name) ==> FloatPass(m, s)[name] == FloatDefault(s[j].1)
  {
    if |s| > 0 {
      var p := s[..|s| - 1];
      FloatPassFirst(m, p, name);
      assert forall j :: 0 <= j < |p| ==> p[j] == s[j];
      assert Named(s, name) <==> Named(p, name) || s[|s| - 1].0 == name;
      forall j | name !in m && IsFirst(s, j, name)
        ensures FloatPass(m, s)[name] == FloatDefault(s[j].1)
      {
        if j < |p| {
          assert IsFirst(p, j, name);
        } else {
          assert !Named(p, name);
        }
      }
    }
  }

  /**
   * The merge policy of `parse_lua_defaults`: a name has a default when
   * some pattern matched it; a bool match wins, else the last float3
   * match, else the first float match.
   */
  lemma DefaultsMergePolicy(l: LuaMatches, name: string)
    ensures var r := LuaDefaults(Some(l));
            name in r <==> Named(l.float3s, name) || Named(l.floats, name) || Named(l.bools, name)
    ensures forall j :: IsLast(l.bools, j, name) ==> LuaDefaults(Some(l))[name] == BoolDefault(l.bools[j].1)
    ensures !Named(l.bools, name) ==>
              forall j :: IsLast(l.float3s, j, name) ==> LuaDefaults(Some(l))[name] == Float3Default(l.float3s[j].1)
    ensures !Named(l.bools, name) && !Named(l.float3s, name) ==>
              forall j :: IsFirst(l.floats, j, name) ==> LuaDefaults(Some(l))[name] == FloatDefault(l.floats[j].1)
    ensures LuaDefaults(None) == map[]
  {
    var a := Float3Pass(map[], l.float3s);
    var b := FloatPass(a, l.floats);
    Float3PassLast(map[], l.float3s, name);
    FloatPassFirst(a, l.floats, name);
    BoolPassLast(b, l.bools, name);
  }

  /**
   * `parse_lua_defaults`: the float3 matches first, then the floats that
   * do not overwrite a name already present, then the bools.
   */
  method ParseLuaDefaults(script: Option<LuaMatches>) returns (defaults: DefaultsMap)
    ensures defaults == LuaDefaults(script)
  {
    defaults := map[];
    if script.None? {
      return;
    }
    var l := script.value;
    for i := 0 to |l.float3s|
      invariant defaults == Float3Pass(map[], l.float3s[..i])
    {
      assert l.float3s[..i + 1][..i] == l.float3s[..i];
      defaults := defaults[l.float3s[i].0 := Float3Default(l.float3s[i].1)];
    }
    assert l.float3s[..|l.float3s|] == l.float3s;
    ghost var afterFloat3s := defaults;
    for i := 0 to |l.floats|
      invariant defaults == FloatPass(afterFloat3s, l.floats[..i])
    {
      assert l.floats[..i + 1][..i] == l.floats[..i];
      if l.floats[i].0 !in defaults {
        defaults := defaults[l.floats[i].0 := FloatDefault(l.floats[i].1)];
      }
    }
    assert l.floats[..|l.floats|] == l.floats;
    ghost var afterFloats := defaults;
    for i := 0 to |l.bools|
      invariant defaults == BoolPass(afterFloats, l.bools[..i])
    {
      assert l.bools[..i + 1][..i] == l.bools[..i];
      defaults := defaults[l.bools[i].0 := BoolDefault(l.bools[i].1)];
    }
    assert l.bools[..|l.bools|] == l.bools;
  }

  /**
   * `get_defaults_for_type` on a cache: a cached type is answered from
   * the cache; otherwise an existing script is parsed and cached; a
   * missing one gives no defaults and nothing is cached.
   */
  function Lookup(cache: map<string, DefaultsMap>, materialType: string, fileExists: bool,
                  script: Option<LuaMatches>): (DefaultsMap, map<string, DefaultsMap>)
  {
    if materialType in cache then (cache[materialType], cache)
    else if fileExists then (LuaDefaults(script), cache[materialType := LuaDefaults(script)])
    else (map[], cache)
  }

  /**
   * A second lookup of the same type returns what the first returned and
   * changes nothing, whatever the script now holds; a missing script
   * leaves the cache as it was.
   */
  lemma LookupIsStable(cache: map<string, DefaultsMap>, materialType: string, fileExists: bool,
                       first: Option<LuaMatches>, later: Option<LuaMatches>)
    ensures var r := Lookup(cache, materialType, fileExists, first);
            Lookup(r.1, materialType, fileExists, later) == r
    ensures !fileExists ==> Lookup(cache, materialType, fileExists, first).1 == cache
    ensures materialType !in cache && !fileExists ==> Lookup(cache, materialType, fileExists, first).0 == map[]
    ensures forall t :: t in cache ==>
              (t in Lookup(cache, materialType, fileExists, first).1
               && Lookup(cache, materialType, fileExists, first).1[t] == cache[t])
  {
  }

  /** The tolerance of `floats_equal`. */
  const Epsilon: real := 0.0001

  /** `floats_equal`: closer than the tolerance. */
  function FloatsEqual(a: real, b: real): (r: bool)
    ensures r <==> -Epsilon < a - b < Epsilon
  {
    Abs(a - b) < Epsilon
  }

  /** Closeness is symmetric and reflexive. */
  lemma FloatsEqualSymmetric(a: real, b: real)
    ensures FloatsEqual(a, b) == FloatsEqual(b, a)
    ensures FloatsEqual(a, a)
  {
  }

  datatype Kind = FloatKind | BoolKind | Float3Kind | OtherKind

  function DefaultKind(d: DefaultValue): Kind {
    match d
    case FloatDefault(_) => FloatKind
    case BoolDefault(_) => BoolKind
    case Float3Default(_) => Float3Kind
  }

  function ValueKind(v: PropertyValue): Kind {
    match v
    case FloatVar(_) => FloatKind
    case BoolVar(_) => BoolKind
    case Vec3Var(_) => Float3Kind
    case _ => OtherKind
  }

  /**
   * `is_default_value` given the type's defaults: the property has a
   * default of its own type and matches it, floats within the tolerance
   * component by component.
   */
  function IsDefaultValue(defaults: DefaultsMap, name: string, value: PropertyValue): (r: bool)
    ensures name !in defaults ==> !r
    ensures name in defaults && DefaultKind(defaults[name]) != ValueKind(value) ==> !r
    ensures ValueKind(value) == OtherKind ==> !r
    ensures r && value.BoolVar? ==> defaults[name] == BoolDefault(value.b)
    ensures r && value.FloatVar? ==> -Epsilon < value.f - defaults[name].f < Epsilon
    ensures r && value.Vec3Var? ==>
              -Epsilon < value.v3.x - defaults[name].v.x < Epsilon
              && -Epsilon < value.v3.y - defaults[name].v.y < Epsilon
              && -Epsilon < value.v3.z - defaults[name].v.z < Epsilon
  {
    if name !in defaults then false
    else
      var d := defaults[name];
      match value
      case FloatVar(f) => d.FloatDefault? && FloatsEqual(f, d.f)
      case BoolVar(b) => d.BoolDefault? && b == d.b
      case Vec3Var(u) =>
        d.Float3Default? && FloatsEqual(u.x, d.v.x) && FloatsEqual(u.y, d.v.y) && FloatsEqual(u.z, d.v.z)
      case _ => false
  }

  /** A property matching its default within the tolerance is a default. */
  lemma IsDefaultWhenClose(defaults: DefaultsMap, name: string, value: PropertyValue)
    requires name in defaults
    ensures value.BoolVar? && defaults[name] == BoolDefault(value.b) ==> IsDefaultValue(defaults, name, value)
    ensures (value.FloatVar? && defaults[name].FloatDefault? && -Epsilon < value.f - defaults[name].f < Epsilon)
              ==> IsDefaultValue(defaults, name, value)
    ensures (value.Vec3Var? && defaults[name].Float3Default?
             && -Epsilon < value.v3.x - defaults[name].v.x < Epsilon
             && -Epsilon < value.v3.y - defaults[name].v.y < Epsilon
             && -Epsilon < value.v3.z - defaults[name].v.z < Epsilon)
              ==> IsDefaultValue(defaults, name, value)
  {
  }

  datatype Property = Property(name: string, value: PropertyValue)

  /** The parts of a material the dumper reads; textures in the order the material lists them. */
  datatype Material = Material(
    name: string,
    materialType: string,
    properties: seq<Property>,
    resourceProperties: seq<(string, string)>)

  /** The properties that differ from their defaults, with their text, in order. */
  function NonDefaultProperties(defaults: DefaultsMap, props: seq<Property>): seq<(string, string)> {
    if |props| == 0 then []
    else
      var p := props[|props| - 1];
      NonDefaultProperties(defaults, props[..|props| - 1])
        + (if IsDefaultValue(defaults, p.name, p.value) then [] else [(p.name, PropertyToString(p.value))])
  }

  /** The textures with a non-empty value, in order. */
  function Textures(resources: seq<(string, string)>): seq<(string, string)> {
    if |resources| == 0 then []
    else
      Textures(resources[..|resources| - 1])
        + (if |resources[|resources| - 1].1| > 0 then [resources[|resources| - 1]] else [])
  }

  /** One "  name: value" line per entry. */
  function Lines(entries: seq<(string, string)>): string {
    if |entries| == 0 then ""
    else Lines(entries[..|entries| - 1]) + "  " + entries[|entries| - 1].0 + ": " + entries[|entries| - 1].1 + "\n"
  }

  /** A section: its header and lines, or nothing when it has no entries. */
  function Section(header: string, entries: seq<(string, string)>): string {
    if |entries| == 0 then "" else header + Lines(entries)
  }

  /** The text of a dump: the type, the non-default properties, the non-empty textures. */
  function DumpText(m: Material, defaults: DefaultsMap): string {
    "Type: " + m.materialType + "\n"
      + Section("Material:\r\n", NonDefaultProperties(defaults, m.properties))
      + Section("Textures:\r\n", Textures(m.resourceProperties))
  }

  const DumpDirectory: string := "data/shaderpatch/material_dumps/"

  /** The material section is written exactly when some property differs from its default. */
  lemma {:induction false} NonDefaultIff(defaults: DefaultsMap, props: seq<Property>)
    ensures |NonDefaultProperties(defaults, props)| <= |props|
    ensures NonDefaultProperties(defaults, props) == [] <==>
              forall i :: 0 <= i < |props| ==> IsDefaultValue(defaults, props[i].name, props[i].value)
  {
    if |props| > 0 {
      var init := props[..|props| - 1];
      NonDefaultIff(defaults, init);
      assert forall i :: 0 <= i < |init| ==> init[i] == props[i];
    }
  }

  /** The textures listed are exactly the non-empty ones, in order. */
  lemma {:induction false} TexturesNonEmpty(resources: seq<(string, string)>)
    ensures forall t :: t in Textures(resources) ==> t in resources && |t.1| > 0
    ensures forall t :: t in resources && |t.1| > 0 ==> t in Textures(resources)
    ensures |Textures(resources)| <= |resources|
    ensures Textures(resources) == [] <==> forall i :: 0 <= i < |resources| ==> resources[i].1 == ""
  {
    if |resources| > 0 {
      var init := resources[..|resources| - 1];
      TexturesNonEmpty(init);
      assert resources == init + [resources[|resources| - 1]];
      assert forall i :: 0 <= i < |init| ==> init[i] == resources[i];
    }
  }

  /** With nothing to report, a dump holds only the type line. */
  lemma DumpOfDefaults(m: Material, defaults: DefaultsMap)
    requires forall i :: 0 <= i < |m.properties| ==>
               IsDefaultValue(defaults, m.properties[i].name, m.properties[i].value)
    requires forall i :: 0 <= i < |m.resourceProperties| ==> m.resourceProperties[i].1 == ""
    ensures DumpText(m, defaults) == "Type: " + m.materialType + "\n"
  {
    NonDefaultIff(defaults, m.properties);
    TexturesNonEmpty(m.resourceProperties);
  }

  /** The per-type defaults cache of the dumper (`g_material_defaults_cache`). */
  class DefaultsCache {
    var cache: map<string, DefaultsMap>

    constructor ()
      ensures cache == map[]
    {
      cache := map[];
    }

    /**
     * `get_defaults_for_type`: the script of `materialType` exists when
     * `fileExists`, and `script` is what reading it gives.
     */
    method GetDefaultsForType(materialType: string, fileExists: bool, script: Option<LuaMatches>)
      returns (defaults: DefaultsMap)
      modifies this
      ensures (defaults, cache) == Lookup(old(cache), materialType, fileExists, script)
    {
      if materialType in cache {
        return cache[materialType];
      }
      if fileExists {
        defaults := ParseLuaDefaults(script);
        cache := cache[materialType := defaults];
        return;
      }
      return map[];
    }

    /** `is_default_value`: the defaults of the type, then the comparison. */
    method IsDefault(materialType: string, name: string, value: PropertyValue,
                     fileExists: bool, script: Option<LuaMatches>) returns (r: bool)
      modifies this
      ensures var looked := Lookup(old(cache), materialType, fileExists, script);
              r == IsDefaultValue(looked.0, name, value) && cache == looked.1
    {
      var defaults := GetDefaultsForType(materialType, fileExists, script);
      r := IsDefaultValue(defaults, name, value);
    }

    /**
     * The property loop of `dump_material_to_mtrl`: the text of every
     * property that is not a default, looking the defaults up for each.
     */
    method CollectNonDefault(materialType: string, props: seq<Property>, fileExists: bool,
                             script: Option<LuaMatches>) returns (nonDefault: seq<(string, string)>)
      modifies this
      ensures var looked := Lookup(old(cache), materialType, fileExists, script);
              nonDefault == NonDefaultProperties(looked.0, props)
              && cache == (if 0 < |props| then looked.1 else old(cache))
    {
      ghost var looked: (DefaultsMap, map<string, DefaultsMap>) := Lookup(old(cache), materialType, fileExists, script);
      LookupIsStable(old(cache), materialType, fileExists, script, script);
      nonDefault := [];
      for i := 0 to |props|
        invariant nonDefault == NonDefaultProperties(looked.0, props[..i])
        invariant cache == if i == 0 then old(cache) else looked.1
      {
        var p := props[i];
        var isDefault := IsDefault(materialType, p.name, p.value, fileExists, script);
        assert props[..i + 1][..i] == props[..i];
        if !isDefault {
          nonDefault := nonDefault + [(p.name, PropertyToString(p.value))];
        }
      }
      assert props[..|props|] == props;
    }

    /**
     * `dump_material_to_mtrl`: the path from the sanitised name and the
     * text of the dump, or `None` when the output could not be opened.
     * The defaults are looked up once per property.
     */
    method DumpMaterialToMtrl(material: Material, fileExists: bool, script: Option<LuaMatches>, outputOpen: bool)
      returns (file: Option<(string, string)>)
      modifies this
      ensures var looked := Lookup(old(cache), material.materialType, fileExists, script);
              cache == (if outputOpen && 0 < |material.properties| then looked.1 else old(cache))
      ensures !outputOpen ==> file.None?
      ensures outputOpen ==>
                (file.Some?
                 && file.value.1 == DumpText(material, Lookup(old(cache), material.materialType, fileExists, script).0))
      ensures file.Some? ==> file.value.0 == DumpDirectory + SanitisedName(material.name) + ".mtrl"
    {
      var filename := SanitiseFilename(material.name);
      var path := DumpDirectory + filename + ".mtrl";
      if !outputOpen {
        return None;
      }
      var nonDefault := CollectNonDefault(material.materialType, material.properties, fileExists, script);
      var textures := CollectTextures(material.resourceProperties);
      var out := WriteDump(material.materialType, nonDefault, textures);
      file := Some((path, out));
    }
  }

  /** Writes the type line and the two sections, each only when it has entries. */
  method WriteDump(materialType: string, nonDefault: seq<(string, string)>, textures: seq<(string, string)>)
    returns (out: string)
    ensures out == "Type: " + materialType + "\n" + Section("Material:\r\n", nonDefault) + Section("Textures:\r\n", textures)
  {
    out := "Type: " + materialType + "\n";
    out := AppendSection(out, "Material:\r\n", nonDefault);
    out := AppendSection(out, "Textures:\r\n", textures);
  }

  /** Writes a section's header and lines after `out` when it has entries. */
  method AppendSection(out: string, header: string, entries: seq<(string, string)>) returns (r: string)
    ensures r == out + Section(header, entries)
  {
    r := out;
    if |entries| > 0 {
      r := AppendLines(out + header, entries);
      assert r == out + (header + Lines(entries));
    }
  }

  /** Writes one "  name: value" line per entry after `out`. */
  method AppendLines(out: string, entries: seq<(string, string)>) returns (r: string)
    ensures r == out + Lines(entries)
  {
    r := out;
    for i := 0 to |entries|
      invariant r == out + Lines(entries[..i])
    {
      assert entries[..i + 1][..i] == entries[..i];
      r := r + "  " + entries[i].0 + ": " + entries[i].1 + "\n";
    }
    assert entries[..|entries|] == entries;
  }

  /** Collects the textures with a non-empty value, in order. */
  method CollectTextures(resources: seq<(string, string)>) returns (textures: seq<(string, string)>)
    ensures textures == Textures(resources)
  {
    textures := [];
    for i := 0 to |resources|
      invariant textures == Textures(resources[..i])
    {
      assert resources[..i + 1][..i] == resources[..i];
      if |resources[i].1| > 0 {
        textures := textures + [resources[i]];
      }
    }
    assert resources[..|resources|] == resources;
  }
}
