/**
 * Capability derivation of `DX8Caps`,
 * Generals/Code/Libraries/Source/WWVegas/WW3D2/dx8caps.cpp.
 *
 * The Direct3D device is not modelled: the parts of `D3DCAPS8` that
 * `Compute_Caps` reads are a `DeviceCaps` value, and `CheckDeviceFormat` is the
 * oracle `accepts(display, format)`, true when the device can use textures of
 * `format` with the display in `display`.
 */
module DX8Capabilities {

  /** `WW3D_FORMAT_UNKNOWN`, the compressed formats and `WW3D_FORMAT_COUNT`. */
  const FormatUnknown: int := 0
  const FormatDxt1: int := 20
  const FormatDxt2: int := 21
  const FormatDxt3: int := 22
  const FormatDxt4: int := 23
  const FormatDxt5: int := 24
  const FormatCount: int := 25

  /** `VENDOR_ID_NVIDIA`, the PCI vendor id the hacks look for. */
  const VendorIdNVidia: int := 0x10de
  /** `VENROD_ID_ATI` (sic). */
  const VendorIdAti: int := 0x1002

  /** The number of texture stages the wrapper manages. */
  const MaxTextureStages: int := 8

  /** The fields of `D3DCAPS8` that the derivation reads. */
  datatype DeviceCaps = DeviceCaps(
    nPatches: bool,            // DevCaps has D3DDEVCAPS_NPATCHES
    dotProduct3: bool,         // TextureOpCaps has D3DTEXOPCAPS_DOTPRODUCT3
    maxSimultaneousTextures: int,
    vertexShaderVersion: int,
    pixelShaderVersion: int)

  /** The scalar capability fields of a `DX8Caps`, as one value. */
  datatype CapsFlags = CapsFlags(
    supportNPatches: bool,
    supportDot3: bool,
    supportGamma: bool,
    supportDxtc: bool,
    supportBumpEnvmap: bool,
    supportBumpEnvmapLuminance: bool,
    maxTexturesPerPass: int,
    maxSimultaneousTextures: int,
    vertexShaderVersion: int,
    pixelShaderVersion: int)

  /** `DX8Caps::VendorIdType`, in the order of the vendor name table. */
  datatype VendorIdType =
    | VendorUnknown | VendorNVidia | VendorAti | VendorIntel | VendorS3 | VendorPowerVR
    | VendorMatrox | Vendor3Dfx | Vendor3DLabs | VendorCirrusLogic | VendorRendition

  /** The vendors with a `Get_*_Device` lookup. */
  datatype DeviceFamily = FamilyAti | Family3DLabs | FamilyNVidia | Family3Dfx
                        | FamilyMatrox | FamilyPowerVR | FamilyS3 | FamilyIntel

  /** `Define_Vendor`: every vendor id is reported as unknown. */
  function DefineVendor(vendorId: int): (v: VendorIdType)
    ensures v == VendorUnknown
  {
    VendorUnknown
  }

  /**
   * The ordinal of each family's `*_DEVICE_UNKNOWN`: the first value of every
   * device enum.
   */
  const DeviceUnknown: nat := 0

  /**
   * `Get_ATI_Device` … `Get_Intel_Device`: every device id is reported as the
   * family's unknown device.
   */
  function GetDevice(family: DeviceFamily, deviceId: int): (d: nat)
    ensures d == DeviceUnknown
  {
    DeviceUnknown
  }

  /**
   * The `SupportTextureFormat` table `Check_Texture_Format_Support` fills:
   * nothing with an unknown display format, otherwise what the device accepts,
   * except that the unknown texture format is never supported.
   */
  function FormatTable(display: int, accepts: (int, int) -> bool): (t: seq<bool>)
    ensures |t| == FormatCount
    ensures display == FormatUnknown ==> forall i :: 0 <= i < FormatCount ==> !t[i]
    ensures display != FormatUnknown ==> !t[FormatUnknown]
    ensures display != FormatUnknown ==> forall i :: 0 < i < FormatCount ==> t[i] == accepts(display, i)
  {
    seq(FormatCount, i => display != FormatUnknown && i != FormatUnknown && accepts(display, i))
  }

  /** The table after `Vendor_Specific_Hacks`: NVidia loses DXT1. */
  function HackedTable(vendorId: int, t: seq<bool>): seq<bool>
    requires |t| == FormatCount
  {
    if vendorId == VendorIdNVidia then t[FormatDxt1 := false] else t
  }

  /** Whether `t` supports any of the compressed formats DXT1 to DXT5. */
  predicate AnyDxt(t: seq<bool>)
    requires |t| == FormatCount
  {
    t[FormatDxt1] || t[FormatDxt2] || t[FormatDxt3] || t[FormatDxt4] || t[FormatDxt5]
  }

  /** The state `Vendor_Specific_Hacks` leaves, from what `Compute_Caps` set before it. */
  function HackedFlags(vendorId: int, flags: CapsFlags, t: seq<bool>): CapsFlags
    requires |t| == FormatCount
  {
    if vendorId == VendorIdNVidia
    then flags.(supportNPatches := false, supportDxtc := AnyDxt(HackedTable(vendorId, t)))
    else flags
  }

  /** All the fields `Compute_Caps` sets, from the device caps, before the hacks. */
  function ComputedFlags(caps: DeviceCaps, gamma: bool): CapsFlags
  {
    CapsFlags(caps.nPatches, caps.dotProduct3, gamma, true, true, true, MaxTextureStages,
              caps.maxSimultaneousTextures, caps.vertexShaderVersion, caps.pixelShaderVersion)
  }

  /** The state of a `DX8Caps` object these members touch. */
  class DX8Caps {
    var supportNPatches: bool
    var supportDot3: bool
    var supportGamma: bool
    var supportDxtc: bool
    var supportBumpEnvmap: bool
    var supportBumpEnvmapLuminance: bool
    var maxTexturesPerPass: int
    var maxSimultaneousTextures: int
    var vertexShaderVersion: int
    var pixelShaderVersion: int
    /** `SupportTextureFormat[WW3D_FORMAT_COUNT]`. */
    const supportTextureFormat: array<bool>

    ghost predicate Valid()
      reads this
    {
      supportTextureFormat.Length == FormatCount
    }

    function Flags(): CapsFlags
      reads this
    {
      CapsFlags(supportNPatches, supportDot3, supportGamma, supportDxtc, supportBumpEnvmap,
                supportBumpEnvmapLuminance, maxTexturesPerPass, maxSimultaneousTextures,
                vertexShaderVersion, pixelShaderVersion)
    }

    /**
     * The constructor: the device is queried once, with `Compute_Caps`
     * deriving every field from its answers and the adapter's vendor id.
     */
    constructor(caps: DeviceCaps, gamma: bool, display: int, vendorId: int, accepts: (int, int) -> bool)
      ensures Valid() && fresh(supportTextureFormat)
      ensures supportTextureFormat[..] == HackedTable(vendorId, FormatTable(display, accepts))
      ensures Flags() == HackedFlags(vendorId, ComputedFlags(caps, gamma), FormatTable(display, accepts))
    {
      supportTextureFormat := new bool[FormatCount];
      new;
      ComputeCaps(caps, gamma, display, vendorId, accepts);
    }

    /**
     * `Compute_Caps`: the N-patch, dot3 and gamma flags and the stage count,
     * then the format, compression, bump-map, shader and texture-count checks,
     * and last the vendor hacks, which may undo what the earlier checks set.
     */
    method ComputeCaps(caps: DeviceCaps, gamma: bool, display: int, vendorId: int, accepts: (int, int) -> bool)
      requires Valid()
      modifies this, supportTextureFormat
      ensures supportTextureFormat[..] == HackedTable(vendorId, FormatTable(display, accepts))
      ensures Flags() == HackedFlags(vendorId, ComputedFlags(caps, gamma), FormatTable(display, accepts))
    {
      supportNPatches := caps.nPatches;
      supportDot3 := caps.dotProduct3;
      supportGamma := gamma;
      maxTexturesPerPass := MaxTextureStages;
      CheckTextureFormatSupport(display, accepts);
      CheckTextureCompressionSupport();
      CheckBumpmapSupport();
      CheckShaderSupport(caps);
      CheckMaximumTextureSupport(caps);
      assert Flags() == ComputedFlags(caps, gamma);
      VendorSpecificHacks(vendorId);
    }

    /** `Check_Texture_Format_Support`: fills the whole table, and nothing else. */
    method CheckTextureFormatSupport(display: int, accepts: (int, int) -> bool)
      requires Valid()
      modifies supportTextureFormat
      ensures supportTextureFormat[..] == FormatTable(display, accepts)
    {
      if display == FormatUnknown {
        var i := 0;
        while i < FormatCount
          invariant 0 <= i <= FormatCount
          invariant forall j :: 0 <= j < i ==> !supportTextureFormat[j]
        {
          supportTextureFormat[i] := false;
          i := i + 1;
        }
        assert supportTextureFormat[..] == FormatTable(display, accepts);
        return;
      }
      var i := 0;
      while i < FormatCount
        invariant 0 <= i <= FormatCount
        invariant forall j :: 0 <= j < i ==> supportTextureFormat[j] == (j != FormatUnknown && accepts(display, j))
      {
        if i == FormatUnknown {
          supportTextureFormat[i] := false;
        } else {
          supportTextureFormat[i] := accepts(display, i);
        }
        i := i + 1;
      }
      assert supportTextureFormat[..] == FormatTable(display, accepts);
    }

    /** `Check_Texture_Compression_Support`: DXTC is assumed, whatever the device says. */
    method CheckTextureCompressionSupport()
      modifies this
      ensures Flags() == old(Flags()).(supportDxtc := true)
    {
      supportDxtc := true;
    }

    /** `Check_Bumpmap_Support`: both bump-map modes are assumed. */
    method CheckBumpmapSupport()
      modifies this
      ensures Flags() == old(Flags()).(supportBumpEnvmap := true, supportBumpEnvmapLuminance := true)
    {
      supportBumpEnvmap := true;
      supportBumpEnvmapLuminance := true;
    }

    /** `Check_Shader_Support`: the device's shader versions. */
    method CheckShaderSupport(caps: DeviceCaps)
      modifies this
      ensures Flags() == old(Flags()).(vertexShaderVersion := caps.vertexShaderVersion,
                                        pixelShaderVersion := caps.pixelShaderVersion)
    {
      vertexShaderVersion := caps.vertexShaderVersion;
      pixelShaderVersion := caps.pixelShaderVersion;
    }

    /** `Check_Maximum_Texture_Support`: the device's simultaneous-texture count. */
    method CheckMaximumTextureSupport(caps: DeviceCaps)
      modifies this
      ensures Flags() == old(Flags()).(maxSimultaneousTextures := caps.maxSimultaneousTextures)
    {
      maxSimultaneousTextures := caps.maxSimultaneousTextures;
    }

    /**
     * `Vendor_Specific_Hacks`: on NVidia, N-patches and DXT1 are switched off
     * and DXTC is re-derived from the compressed formats still supported; any
     * other vendor is left alone.
     */
    method VendorSpecificHacks(vendorId: int)
      requires Valid()
      modifies this, supportTextureFormat
      ensures supportTextureFormat[..] == HackedTable(vendorId, old(supportTextureFormat[..]))
      ensures Flags() == HackedFlags(vendorId, old(Flags()), old(supportTextureFormat[..]))
    {
      if vendorId == VendorIdNVidia {
        supportNPatches := false;
        supportTextureFormat[FormatDxt1] := false;
        supportDxtc := supportTextureFormat[FormatDxt1] || supportTextureFormat[FormatDxt2]
                       || supportTextureFormat[FormatDxt3] || supportTextureFormat[FormatDxt4]
                       || supportTextureFormat[FormatDxt5];
      }
    }
  }

  /** `AnyDxt` is the existence of a supported compressed format. */
  lemma AnyDxtMeansSomeDxtFormat(t: seq<bool>)
    requires |t| == FormatCount
    ensures AnyDxt(t) <==> exists i :: FormatDxt1 <= i <= FormatDxt5 && t[i]
  {
    if AnyDxt(t) {
      if t[FormatDxt1] { assert t[FormatDxt1]; }
      else if t[FormatDxt2] { assert t[FormatDxt2]; }
      else if t[FormatDxt3] { assert t[FormatDxt3]; }
      else if t[FormatDxt4] { assert t[FormatDxt4]; }
      else { assert t[FormatDxt5]; }
    }
  }

  /**
   * On NVidia the DXTC flag ends up meaning "some of DXT2 to DXT5 is
   * supported": DXT1 is cleared before the flag is derived.
   */
  lemma NVidiaDxtcIgnoresDxt1(t: seq<bool>)
    requires |t| == FormatCount
    ensures AnyDxt(HackedTable(VendorIdNVidia, t)) <==> exists i :: FormatDxt2 <= i <= FormatDxt5 && t[i]
  {
    var h := HackedTable(VendorIdNVidia, t);
    AnyDxtMeansSomeDxtFormat(h);
    assert forall i :: FormatDxt2 <= i <= FormatDxt5 ==> h[i] == t[i];
  }

  /**
   * What the derivation leaves in the DXTC and N-patch flags: every adapter
   * but NVidia's keeps DXTC and the device's N-patch answer; NVidia's never
   * has N-patches, and DXTC only through DXT2 to DXT5.
   */
  lemma DerivedDxtcAndNPatches(caps: DeviceCaps, gamma: bool, display: int, vendorId: int, accepts: (int, int) -> bool)
    ensures var f := HackedFlags(vendorId, ComputedFlags(caps, gamma), FormatTable(display, accepts));
            (vendorId != VendorIdNVidia ==> f.supportDxtc && f.supportNPatches == caps.nPatches) &&
            (vendorId == VendorIdNVidia ==>
               !f.supportNPatches &&
               (f.supportDxtc <==> exists i :: FormatDxt2 <= i <= FormatDxt5 && display != FormatUnknown && accepts(display, i)))
  {
    var t := FormatTable(display, accepts);
    if vendorId == VendorIdNVidia {
      NVidiaDxtcIgnoresDxt1(t);
      assert forall i :: FormatDxt2 <= i <= FormatDxt5 ==> t[i] == (display != FormatUnknown && accepts(display, i));
    }
  }

  /** With an unknown display format nothing is supported, so NVidia reports no DXTC at all. */
  lemma UnknownDisplaySupportsNothing(caps: DeviceCaps, gamma: bool, vendorId: int, accepts: (int, int) -> bool)
    ensures forall i :: 0 <= i < FormatCount ==> !HackedTable(vendorId, FormatTable(FormatUnknown, accepts))[i]
    ensures vendorId == VendorIdNVidia ==>
              !HackedFlags(vendorId, ComputedFlags(caps, gamma), FormatTable(FormatUnknown, accepts)).supportDxtc
  {
    var t := FormatTable(FormatUnknown, accepts);
    assert !t[FormatDxt2] && !t[FormatDxt3] && !t[FormatDxt4] && !t[FormatDxt5];
  }

  /** The hacks change the table at DXT1 only, and applying them twice is applying them once. */
  lemma HacksTouchOnlyDxt1(vendorId: int, t: seq<bool>, flags: CapsFlags)
    requires |t| == FormatCount
    ensures forall i :: 0 <= i < FormatCount && i != FormatDxt1 ==> HackedTable(vendorId, t)[i] == t[i]
    ensures HackedTable(vendorId, HackedTable(vendorId, t)) == HackedTable(vendorId, t)
    ensures HackedFlags(vendorId, HackedFlags(vendorId, flags, t), HackedTable(vendorId, t))
            == HackedFlags(vendorId, flags, t)
  {
    if vendorId == VendorIdNVidia {
      assert HackedTable(vendorId, t)[FormatDxt1 := false] == HackedTable(vendorId, t);
    }
  }

  /** Vendor and device identification are stubs: even NVidia's id is not recognised. */
  lemma IdentificationIsStubbed(deviceId: int)
    ensures DefineVendor(VendorIdNVidia) == VendorUnknown && DefineVendor(VendorIdAti) == VendorUnknown
    ensures forall f: DeviceFamily :: GetDevice(f, deviceId) == DeviceUnknown
  {
  }
}
