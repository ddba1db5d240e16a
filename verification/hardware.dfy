/**
 * Hardware capabilities (germany3d/hardware.py): the GPU vendor and OpenGL
 * version parsers, the feature flags derived from the version and the
 * extension list, the rendering tier and the recommended settings, and the
 * lazily detected process-wide instance.
 */
module Hardware {
  import opened Common
  import opened PyStrings
  import LodAggressive

  datatype GpuVendor = Nvidia | Amd | Intel | Apple | Unknown | NoGpu

  datatype RenderingTier = High | Medium | Low | Minimal

  /** `_parse_vendor`: case-insensitive substring tests in the order nvidia, amd/ati, intel, apple. */
  function ParseVendor(vendor: string): GpuVendor
  {
    var v := Lower(vendor);
    if Contains(v, "nvidia") then Nvidia
    else if Contains(v, "amd") || Contains(v, "ati") then Amd
    else if Contains(v, "intel") then Intel
    else if Contains(v, "apple") then Apple
    else Unknown
  }

  /** The parse ignores case: lower-casing the string first gives the same vendor. */
  lemma ParseVendorIgnoresLower(vendor: string)
    ensures ParseVendor(Lower(vendor)) == ParseVendor(vendor)
  {
    LowerIdempotent(vendor);
  }

  /** Upper-casing the string first gives the same vendor as well. */
  lemma ParseVendorIgnoresUpper(vendor: string)
    ensures ParseVendor(Upper(vendor)) == ParseVendor(vendor)
  {
    LowerOfUpper(vendor);
  }

  /** "nvidia" anywhere, in any case, wins over every other name. */
  lemma ParseVendorNvidiaAnywhere(vendor: string, i: int)
    requires OccursAt(Lower(vendor), "nvidia", i)
    ensures ParseVendor(vendor) == Nvidia
  {
    ContainsAt(Lower(vendor), "nvidia", i);
  }

  /**
   * "ati" is tested before "intel", and it occurs inside "corporation":
   * Intel's vendor string, in any case, parses as AMD.
   */
  lemma IntelCorporationParsesAsAmd(vendor: string)
    requires Lower(vendor) == "intel corporation"
    ensures ParseVendor(vendor) == Amd
  {
    var v := Lower(vendor);
    assert v[12..15] == "ati";
    ContainsAt(v, "ati", 12);
    assert "nvidia"[1] == 'v' && 'v' !in v;
    NotContainsMissingChar(v, "nvidia", 1);
  }

  /**
   * The (major, minor) pair `_parse_opengl_version` stores: the first
   * whitespace-separated word split at '.', major from the first piece and
   * minor from the second (0 when there is none); any failure gives (2, 0).
   */
  function GlVersion(version: string): (int, int)
  {
    match FirstWord(version)
    case None => (2, 0)
    case Some(word) =>
      var parts := SplitOn(word, '.');
      match ParseInt(parts[0])
      case None => (2, 0)
      case Some(major) =>
        if |parts| > 1 then
          match ParseInt(parts[1])
          case None => (2, 0)
          case Some(minor) => (major, minor)
        else (major, 0)
  }

  /** A version string "M.m", optionally followed by ".patch" and then whitespace and vendor text, parses to (M, m). */
  lemma GlVersionOf(major: nat, minor: nat, patch: string, rest: string)
    requires patch == [] || (patch[0] == '.' && forall i :: 0 <= i < |patch| ==> !IsSpace(patch[i]))
    requires rest == [] || IsSpace(rest[0])
    ensures GlVersion(NatToString(major) + "." + NatToString(minor) + patch + rest) == (major, minor)
  {
    var ma, mi := NatToString(major), NatToString(minor);
    var word := ma + "." + mi + patch;
    VersionWord(ma, mi, patch);
    FirstWordOf(word, rest);
    var parts := VersionPieces(ma, mi, patch);
    ParseIntRoundTrip(major);
    ParseIntRoundTrip(minor);
    GlVersionOfPieces(word + rest, word, parts, major, minor);
  }

  /** The version word has no whitespace in it. */
  lemma VersionWord(ma: string, mi: string, patch: string)
    requires AllDigits(ma) && AllDigits(mi)
    requires forall i :: 0 <= i < |patch| ==> !IsSpace(patch[i])
    ensures var word := ma + "." + mi + patch; |word| > 0 && forall i :: 0 <= i < |word| ==> !IsSpace(word[i])
  {
    var word := ma + "." + mi + patch;
    forall i | 0 <= i < |word| ensures !IsSpace(word[i]) {
      if i < |ma| {
        assert word[i] == ma[i];
      } else if i == |ma| {
      } else if i < |ma| + 1 + |mi| {
        assert word[i] == mi[i - |ma| - 1];
      } else {
        assert word[i] == patch[i - |ma| - 1 - |mi|];
      }
    }
  }

  /** Its '.'-pieces start with the major and the minor digits. */
  lemma VersionPieces(ma: string, mi: string, patch: string) returns (parts: seq<string>)
    requires AllDigits(ma) && AllDigits(mi)
    requires patch == [] || patch[0] == '.'
    ensures parts == SplitOn(ma + "." + mi + patch, '.') && |parts| >= 2 && parts[0] == ma && parts[1] == mi
  {
    assert '.' !in ma && '.' !in mi;
    assert ma + "." + mi + patch == ma + ['.'] + (mi + patch);
    SplitOnFirst(ma, '.', mi + patch);
    SplitOnHead(mi, '.', patch);
    parts := SplitOn(ma + "." + mi + patch, '.');
  }

  lemma GlVersionOfPieces(version: string, word: string, parts: seq<string>, major: int, minor: int)
    requires FirstWord(version) == Some(word) && parts == SplitOn(word, '.') && |parts| >= 2
    requires ParseInt(parts[0]) == Some(major) && ParseInt(parts[1]) == Some(minor)
    ensures GlVersion(version) == (major, minor)
  {
  }

  /** No word at all, or a first word whose leading piece is not a number, falls back to OpenGL 2.0. */
  lemma GlVersionFallback(version: string)
    requires FirstWord(version).None? || ParseInt(SplitOn(FirstWord(version).value, '.')[0]).None?
    ensures GlVersion(version) == (2, 0)
  {
  }

  /** Python's `name in extensions` on the extension list, element by element. */
  predicate HasExtension(extensions: seq<string>, name: string)
  {
    extensions != [] && (extensions[0] == name || HasExtension(extensions[1..], name))
  }

  lemma {:induction false} HasExtensionSpec(extensions: seq<string>, name: string)
    ensures HasExtension(extensions, name) <==> name in extensions
  {
    if extensions != [] {
      HasExtensionSpec(extensions[1..], name);
      assert extensions == [extensions[0]] + extensions[1..];
    }
  }

  /** The OpenGL extensions the feature flags look for. */
  const ArbVertexBufferObject: string := "GL_ARB_vertex_buffer_object"
  const ArbDrawInstanced: string := "GL_ARB_draw_instanced"
  const ExtDrawInstanced: string := "GL_EXT_draw_instanced"
  const ArbMultiDrawIndirect: string := "GL_ARB_multi_draw_indirect"
  const ArbBindlessTexture: string := "GL_ARB_bindless_texture"
  const NvBindlessTexture: string := "GL_NV_bindless_texture"

  /** The feature flags `_derive_capabilities` sets. */
  datatype Features = Features(
    vbo: bool,
    instancing: bool,
    geometryShader: bool,
    tessellation: bool,
    computeShader: bool,
    multiDrawIndirect: bool,
    bindlessTexture: bool)

  function DeriveFeatures(major: int, minor: int, extensions: seq<string>): Features
  {
    Features(
      vbo := major >= 2 || (major == 1 && minor >= 5) || HasExtension(extensions, ArbVertexBufferObject),
      instancing := (major >= 3 && minor >= 1) || HasExtension(extensions, ArbDrawInstanced) ||
                    HasExtension(extensions, ExtDrawInstanced),
      geometryShader := (major >= 3 && minor >= 2) || major >= 4,
      tessellation := major >= 4,
      computeShader := major >= 4 && minor >= 3,
      multiDrawIndirect := (major >= 4 && minor >= 3) || HasExtension(extensions, ArbMultiDrawIndirect),
      bindlessTexture := HasExtension(extensions, ArbBindlessTexture) ||
                         HasExtension(extensions, NvBindlessTexture))
  }

  /** Every feature, as a list of flags in declaration order. */
  function FeatureFlags(f: Features): seq<bool>
  {
    [f.vbo, f.instancing, f.geometryShader, f.tessellation, f.computeShader, f.multiDrawIndirect, f.bindlessTexture]
  }

  /** More extensions never take a feature away. */
  lemma FeaturesGrowWithExtensions(major: int, minor: int, e1: seq<string>, e2: seq<string>)
    requires forall x :: x in e1 ==> x in e2
    ensures forall i :: 0 <= i < 7 ==>
              FeatureFlags(DeriveFeatures(major, minor, e1))[i] ==> FeatureFlags(DeriveFeatures(major, minor, e2))[i]
  {
    forall name | HasExtension(e1, name) ensures HasExtension(e2, name) {
      HasExtensionSpec(e1, name);
      HasExtensionSpec(e2, name);
    }
  }

  /** A later version keeps VBOs, geometry shaders and tessellation. */
  lemma LaterVersionKeepsFeatures(m1: int, n1: int, m2: int, n2: int, extensions: seq<string>)
    requires m1 < m2 || (m1 == m2 && n1 <= n2)
    ensures var f1, f2 := DeriveFeatures(m1, n1, extensions), DeriveFeatures(m2, n2, extensions);
            (f1.vbo ==> f2.vbo) && (f1.geometryShader ==> f2.geometryShader) && (f1.tessellation ==> f2.tessellation)
  {
  }

  /**
   * Instancing and compute shaders test the minor number on its own, so a
   * later major version can lose them: 4.0 has no instancing and 5.0 no
   * compute shader without the extension, although 3.1 and 4.3 have them.
   */
  lemma MinorTestQuirks()
    ensures DeriveFeatures(3, 1, []).instancing && !DeriveFeatures(4, 0, []).instancing
    ensures DeriveFeatures(4, 3, []).computeShader && !DeriveFeatures(5, 0, []).computeShader
    ensures !DeriveFeatures(5, 0, []).multiDrawIndirect
  {
  }

  const NvidiaHigh: seq<string> := ["RTX", "GTX 16", "GTX 20", "GTX 30", "GTX 40", "TESLA", "T4", "V100", "A100",
                                    "A10", "A30", "A40", "H100", "L4", "L40", "QUADRO RTX", "QUADRO P"]
  const NvidiaMedium: seq<string> := ["GTX 10", "GTX 9", "QUADRO"]
  const AmdHigh: seq<string> := ["RX 6", "RX 7", "MI100", "MI200", "MI300", "INSTINCT"]
  const AmdMedium: seq<string> := ["RX 5", "VEGA", "VII"]

  /** Python's `any(x in s for x in keys)`. */
  predicate AnyIn(keys: seq<string>, s: string)
  {
    keys != [] && (Contains(s, keys[0]) || AnyIn(keys[1..], s))
  }

  /** The tier `_calculate_recommendations` picks from the vendor and the renderer name. */
  function TierFor(vendor: GpuVendor, gpuName: string): RenderingTier
  {
    match vendor
    case Nvidia =>
      var name := Upper(gpuName);
      if AnyIn(NvidiaHigh, name) then High else if AnyIn(NvidiaMedium, name) then Medium else Medium
    case Amd =>
      var name := Upper(gpuName);
      if AnyIn(AmdHigh, name) then High else if AnyIn(AmdMedium, name) then Medium else Medium
    case Intel => if Contains(gpuName, "Iris") || Contains(gpuName, "Arc") then Medium else Low
    case Apple => Medium
    case _ => Minimal
  }

  /**
   * NVIDIA and AMD are never below MEDIUM and reach HIGH exactly by a listed
   * model name in any case; Intel reaches MEDIUM only by "Iris" or "Arc"
   * spelled exactly so; Apple is MEDIUM; anything else is MINIMAL.
   */
  lemma TierByVendor(vendor: GpuVendor, gpuName: string)
    ensures vendor == Nvidia || vendor == Amd ==> TierFor(vendor, gpuName) == High || TierFor(vendor, gpuName) == Medium
    ensures vendor == Nvidia ==> (TierFor(vendor, gpuName) == High <==> AnyIn(NvidiaHigh, Upper(gpuName)))
    ensures vendor == Amd ==> (TierFor(vendor, gpuName) == High <==> AnyIn(AmdHigh, Upper(gpuName)))
    ensures vendor == Nvidia || vendor == Amd ==> TierFor(vendor, Upper(gpuName)) == TierFor(vendor, gpuName)
    ensures vendor == Intel ==>
              (TierFor(vendor, gpuName) != High &&
               (TierFor(vendor, gpuName) == Medium <==> Contains(gpuName, "Iris") || Contains(gpuName, "Arc")))
    ensures vendor == Apple ==> TierFor(vendor, gpuName) == Medium
    ensures vendor == Unknown || vendor == NoGpu ==> TierFor(vendor, gpuName) == Minimal
  {
    UpperIdempotent(gpuName);
  }

  /** `lod_mode` by tier. */
  function LodModeFor(tier: RenderingTier): string
  {
    match tier
    case High => "standard"
    case Medium => "aggressive"
    case Low => "aggressive"
    case Minimal => "extreme"
  }

  function TierRank(tier: RenderingTier): nat
  {
    match tier
    case High => 3
    case Medium => 2
    case Low => 1
    case Minimal => 0
  }

  /** A lower tier never gets a finer LOD preset, and every mode names one of the three preset tables. */
  lemma LodModeCoarserForLowerTier(t1: RenderingTier, t2: RenderingTier)
    requires TierRank(t1) <= TierRank(t2)
    ensures LodAggressive.ModeRank(LodModeFor(t1)) >= LodAggressive.ModeRank(LodModeFor(t2))
    ensures LodModeFor(t1) == "standard" || LodModeFor(t1) == "aggressive" || LodModeFor(t1) == "extreme"
    ensures LodAggressive.TableFor(LodModeFor(t1)) ==
              match t1
              case High => LodAggressive.StandardLods
              case Minimal => LodAggressive.ExtremeLods
              case _ => LodAggressive.AggressiveLods
  {
  }

  /** `max_turbines_recommended`: 50000 for every tier, then capped by RAM. */
  function MaxTurbinesFor(ramGb: real): int
  {
    var base := 50000;
    if ramGb < 4.0 then (if 5000 < base then 5000 else base)
    else if ramGb < 8.0 then (if 15000 < base then 15000 else base)
    else base
  }

  /** More memory never lowers the budget; the three bands are below 4 GB, below 8 GB and the rest. */
  lemma MaxTurbinesByRam(r1: real, r2: real)
    requires r1 <= r2
    ensures MaxTurbinesFor(r1) <= MaxTurbinesFor(r2) <= 50000
    ensures MaxTurbinesFor(r1) == 5000 <==> r1 < 4.0
    ensures MaxTurbinesFor(r1) == 50000 <==> r1 >= 8.0
  {
  }

  /**
   * What `_detect_gpu`, `_detect_extensions` and `_get_ram_gb` read from the
   * system; an empty string is a query that returned nothing, and an empty
   * extension list also stands for a failed extension query. `gpuFailsAfter`
   * is `Some(k)` when the GPU detection raises after `k` of its vendor,
   * renderer and version reads have been stored, `None` when it completes.
   */
  datatype Probe = Probe(vendor: string, renderer: string, version: string, extensions: seq<string>, ramGb: real,
                         gpuFailsAfter: Option<nat>)

  /** Read `k` of the GPU detection (0 vendor, 1 renderer, 2 version) is stored before any exception. */
  predicate Reads(probe: Probe, k: nat)
  {
    probe.gpuFailsAfter.None? || k < probe.gpuFailsAfter.value
  }

  /** The OpenGL fields: the raw version string and the parsed numbers. */
  datatype OpenGl = OpenGl(version: string, major: int, minor: int)

  /** The recommended settings. */
  datatype Settings = Settings(
    renderingTier: RenderingTier,
    maxTurbinesRecommended: int,
    useShadows: bool,
    useLod: bool,
    lodMode: string,
    useFrustumCulling: bool,
    useInstancedRendering: bool,
    useVboRendering: bool)

  const DefaultSettings: Settings := Settings(Minimal, 1000, false, true, "standard", true, false, false)

  /**
   * The dataclass, its fields grouped as the source's comments group them:
   * GPU, RAM, OpenGL, extensions, derived features and recommended settings.
   */
  class HardwareCapabilities {
    var gpuVendor: GpuVendor
    var gpuName: string
    var ramGb: real
    var opengl: OpenGl
    var extensions: seq<string>
    var features: Features
    var settings: Settings

    /** The dataclass defaults. */
    constructor()
      ensures gpuVendor == Unknown && gpuName == "" && ramGb == 0.0
      ensures opengl == OpenGl("", 0, 0) && extensions == []
      ensures features == Features(false, false, false, false, false, false, false)
      ensures settings == DefaultSettings
    {
      gpuVendor, gpuName, ramGb := Unknown, "", 0.0;
      opengl, extensions := OpenGl("", 0, 0), [];
      features := Features(false, false, false, false, false, false, false);
      settings := DefaultSettings;
    }

    /** `_parse_opengl_version`: the raw string is always kept; a failure part-way resets to 2.0. */
    method ParseOpenGlVersion(version: string)
      modifies this`opengl
      ensures opengl == OpenGl(version, GlVersion(version).0, GlVersion(version).1)
    {
      opengl := opengl.(version := version);
      var word := FirstWord(version);
      if word.None? {
        opengl := opengl.(major := 2, minor := 0);
        return;
      }
      var parts := SplitOn(word.value, '.');
      var major := ParseInt(parts[0]);
      if major.None? {
        opengl := opengl.(major := 2, minor := 0);
        return;
      }
      opengl := opengl.(major := major.value);
      if |parts| > 1 {
        var minor := ParseInt(parts[1]);
        if minor.None? {
          opengl := opengl.(major := 2, minor := 0);
          return;
        }
        opengl := opengl.(minor := minor.value);
      } else {
        opengl := opengl.(minor := 0);
      }
    }

    /** `_derive_capabilities`: every flag from the stored version and extension list. */
    method DeriveCapabilities()
      modifies this`features
      ensures features == DeriveFeatures(opengl.major, opengl.minor, extensions)
    {
      features := DeriveFeatures(opengl.major, opengl.minor, extensions);
    }

    /** `_calculate_recommendations`: the tier, then the settings of that tier, then the RAM cap. */
    method CalculateRecommendations()
      modifies this`settings
      ensures settings.renderingTier == TierFor(gpuVendor, gpuName)
      ensures settings.maxTurbinesRecommended == MaxTurbinesFor(ramGb)
      ensures settings.useShadows && settings.lodMode == LodModeFor(settings.renderingTier)
      ensures settings.useVboRendering == features.vbo
      ensures settings.useInstancedRendering ==
                ((settings.renderingTier == High || settings.renderingTier == Medium) && features.instancing)
      ensures settings.useLod == old(settings).useLod && settings.useFrustumCulling == old(settings).useFrustumCulling
    {
      var tier := TierFor(gpuVendor, gpuName);
      settings := settings.(renderingTier := tier);
      ApplyTierSettings();
    }

    /** The settings of the chosen tier, then the RAM cap. */
    method ApplyTierSettings()
      modifies this`settings
      ensures settings.renderingTier == old(settings).renderingTier
      ensures settings.maxTurbinesRecommended == MaxTurbinesFor(ramGb)
      ensures settings.useShadows && settings.lodMode == LodModeFor(settings.renderingTier)
      ensures settings.useVboRendering == features.vbo
      ensures settings.useInstancedRendering ==
                ((settings.renderingTier == High || settings.renderingTier == Medium) && features.instancing)
      ensures settings.useLod == old(settings).useLod && settings.useFrustumCulling == old(settings).useFrustumCulling
    {
      match settings.renderingTier {
        case High =>
          settings := settings.(maxTurbinesRecommended := 50000, useShadows := true, lodMode := "standard",
                                useInstancedRendering := features.instancing, useVboRendering := features.vbo);
        case Medium =>
          settings := settings.(maxTurbinesRecommended := 50000, useShadows := true, lodMode := "aggressive",
                                useInstancedRendering := features.instancing, useVboRendering := features.vbo);
        case Low =>
          settings := settings.(maxTurbinesRecommended := 50000, useShadows := true, lodMode := "aggressive",
                                useInstancedRendering := false, useVboRendering := features.vbo);
        case Minimal =>
          settings := settings.(maxTurbinesRecommended := 50000, useShadows := true, lodMode := "extreme",
                                useInstancedRendering := false, useVboRendering := features.vbo);
      }
      var max := settings.maxTurbinesRecommended;
      if ramGb < 4.0 {
        settings := settings.(maxTurbinesRecommended := if 5000 < max then 5000 else max);
      } else if ramGb < 8.0 {
        settings := settings.(maxTurbinesRecommended := if 15000 < max then 15000 else max);
      }
    }

    /**
     * Stands for `_detect_system`, `_detect_gpu` and `_detect_extensions`:
     * what they store from the probe. An exception in the GPU detection keeps
     * the reads stored before it and sets the vendor to `NONE`.
     */
    method ApplyProbe(probe: Probe)
      modifies this`ramGb, this`gpuVendor, this`gpuName, this`opengl, this`extensions
      ensures ramGb == probe.ramGb && extensions == probe.extensions
      ensures gpuVendor == if probe.gpuFailsAfter.Some? then NoGpu
                           else if probe.vendor != "" then ParseVendor(probe.vendor) else old(gpuVendor)
      ensures gpuName == if Reads(probe, 1) && probe.renderer != "" then probe.renderer else old(gpuName)
      ensures opengl == if Reads(probe, 2) && probe.version != ""
                        then OpenGl(probe.version, GlVersion(probe.version).0, GlVersion(probe.version).1)
                        else old(opengl)
    {
      ramGb := probe.ramGb;
      if Reads(probe, 0) && probe.vendor != "" {
        gpuVendor := ParseVendor(probe.vendor);
      }
      if Reads(probe, 1) && probe.renderer != "" {
        gpuName := probe.renderer;
      }
      if Reads(probe, 2) && probe.version != "" {
        ParseOpenGlVersion(probe.version);
      }
      if probe.gpuFailsAfter.Some? {
        gpuVendor := NoGpu;
      }
      extensions := probe.extensions;
    }

    /** `detect`: the defaults, the probe, then the derived flags and the recommendations. */
    static method Detect(probe: Probe) returns (caps: HardwareCapabilities)
      ensures fresh(caps)
      ensures caps.ramGb == probe.ramGb && caps.extensions == probe.extensions
      ensures caps.gpuVendor == if probe.gpuFailsAfter.Some? then NoGpu
                                else if probe.vendor != "" then ParseVendor(probe.vendor) else Unknown
      ensures caps.gpuName == if Reads(probe, 1) then probe.renderer else ""
      ensures caps.opengl == if Reads(probe, 2) && probe.version != ""
                             then OpenGl(probe.version, GlVersion(probe.version).0, GlVersion(probe.version).1)
                             else OpenGl("", 0, 0)
      ensures caps.features == DeriveFeatures(caps.opengl.major, caps.opengl.minor, probe.extensions)
      ensures caps.settings.renderingTier == TierFor(caps.gpuVendor, caps.gpuName)
      ensures caps.settings.maxTurbinesRecommended == MaxTurbinesFor(probe.ramGb)
      ensures caps.settings.useShadows && caps.settings.useLod && caps.settings.useFrustumCulling
      ensures caps.settings.lodMode == LodModeFor(caps.settings.renderingTier)
      ensures caps.settings.useVboRendering == caps.features.vbo
      ensures caps.settings.useInstancedRendering ==
                ((caps.settings.renderingTier == High || caps.settings.renderingTier == Medium) && caps.features.instancing)
      ensures probe.gpuFailsAfter.Some? ==>
                caps.settings.renderingTier == Minimal && caps.settings.lodMode == "extreme" &&
                !caps.settings.useInstancedRendering
    {
      caps := new HardwareCapabilities();
      caps.ApplyProbe(probe);
      caps.DeriveCapabilities();
      caps.CalculateRecommendations();
    }
  }

  /** The module-level `_capabilities` singleton. */
  class CapabilitiesCache {
    var cached: Option<HardwareCapabilities>

    constructor()
      ensures cached.None?
    {
      cached := None;
    }

    /** `get_capabilities`: detect on first use, then always hand back the same instance. */
    method GetCapabilities(probe: Probe) returns (caps: HardwareCapabilities)
      modifies this`cached
      ensures cached == Some(caps)
      ensures old(cached).Some? ==> caps == old(cached).value
      ensures old(cached).None? ==>
                (fresh(caps) && caps.gpuName == (if Reads(probe, 1) then probe.renderer else "") &&
                 caps.settings.renderingTier == TierFor(caps.gpuVendor, caps.gpuName))
    {
      if cached.None? {
        caps := HardwareCapabilities.Detect(probe);
        cached := Some(caps);
      } else {
        caps := cached.value;
      }
    }

    /** `reset_capabilities`. */
    method Reset()
      modifies this`cached
      ensures cached.None?
    {
      cached := None;
    }
  }
}
