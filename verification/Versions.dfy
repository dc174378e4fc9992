/** Packed package versions and the compatibility windows that compare them. */
module Versions {

  /** A packed version, as the unsigned number it is stored as. */
  type Version = nat

  datatype CompatibilityWindow = SameMajor | SameMinor

  // ---------- shifts, masks and bitwise or on unsigned numbers ----------

  function Shl(x: nat, k: nat): nat
    decreases k
  {
    if k == 0 then x else Shl(2 * x, k - 1)
  }

  function Shr(x: nat, k: nat): nat {
    if k == 0 then x else Shr(x / 2, k - 1)
  }

  /** The low `k` bits. */
  function Low(x: nat, k: nat): nat {
    if k == 0 then 0 else x % 2 + 2 * Low(x / 2, k - 1)
  }

  function Or(x: nat, y: nat): nat
    decreases x + y
  {
    if x == 0 && y == 0 then 0
    else (if x % 2 == 1 || y % 2 == 1 then 1 else 0) + 2 * Or(x / 2, y / 2)
  }

  /** `(major, minor, patch)` packed by shifting and or-ing; minor and patch are meant to fit 16 bits. */
  function PackPackageVersion(major: nat, minor: nat, patch: nat): Version {
    Or(Or(Shl(major, 32), Shl(minor, 16)), patch)
  }

  function MajorOf(v: Version): nat {
    Shr(v, 32)
  }

  function MinorOf(v: Version): nat {
    Low(Shr(v, 16), 16)
  }

  function PatchOf(v: Version): nat {
    Low(v, 16)
  }

  predicate WindowAdmits(window: CompatibilityWindow, current: Version, target: Version) {
    match window
    case SameMajor => Shr(current, 32) == Shr(target, 32)
    case SameMinor => Shr(current, 16) == Shr(target, 16)
  }

  /** Fits in `k` bits. */
  predicate Fits(x: nat, k: nat) {
    Shr(x, k) == 0
  }

  // ---------- algebra of the bit operations ----------

  lemma {:induction false} OrZero(x: nat)
    ensures Or(x, 0) == x && Or(0, x) == x
    decreases x
  {
    if x != 0 {
      OrZero(x / 2);
    }
  }

  lemma {:induction false} ShrOr(x: nat, y: nat, k: nat)
    ensures Shr(Or(x, y), k) == Or(Shr(x, k), Shr(y, k))
    decreases k
  {
    if k != 0 {
      assert Or(x, y) / 2 == Or(x / 2, y / 2);
      ShrOr(x / 2, y / 2, k - 1);
    }
  }

  lemma {:induction false} LowOr(x: nat, y: nat, k: nat)
    ensures Low(Or(x, y), k) == Or(Low(x, k), Low(y, k))
    decreases k
  {
    if k != 0 {
      assert Or(x, y) / 2 == Or(x / 2, y / 2);
      LowOr(x / 2, y / 2, k - 1);
    } else {
      assert Or(0, 0) == 0;
    }
  }

  lemma {:induction false} ShrShl(x: nat, j: nat, k: nat)
    requires k <= j
    ensures Shr(Shl(x, j), k) == Shl(x, j - k)
    decreases k
  {
    if k != 0 {
      ShlDoubles(x, j - 1);
      ShrShl(x, j - 1, k - 1);
    }
  }

  lemma {:induction false} ShlDoubles(x: nat, k: nat)
    ensures Shl(2 * x, k) == 2 * Shl(x, k)
    ensures Shl(x, k + 1) == 2 * Shl(x, k)
    decreases k
  {
    if k != 0 {
      ShlDoubles(2 * x, k - 1);
    }
  }

  lemma {:induction false} LowShl(x: nat, j: nat, k: nat)
    requires k <= j
    ensures Low(Shl(x, j), k) == 0
    decreases k
  {
    if k != 0 {
      ShlDoubles(x, j - 1);
      LowShl(x, j - 1, k - 1);
    }
  }

  lemma {:induction false} ShrShr(x: nat, j: nat, k: nat)
    ensures Shr(Shr(x, j), k) == Shr(x, j + k)
    decreases j
  {
    if j != 0 {
      ShrShr(x / 2, j - 1, k);
    }
  }

  /** A number is its own low bits exactly when it fits in them. */
  lemma {:induction false} LowFits(x: nat, k: nat)
    ensures Low(x, k) == x <==> Fits(x, k)
    ensures Fits(Low(x, k), k)
    decreases k
  {
    if k != 0 {
      LowFits(x / 2, k - 1);
      assert Low(x, k) / 2 == Low(x / 2, k - 1);
    }
  }

  // ---------- what packing means ----------

  /** What each field reads back as, for every input: overflow of one field is or-ed into the next. */
  lemma PackedFields(major: nat, minor: nat, patch: nat)
    ensures Shr(PackPackageVersion(major, minor, patch), 16) == Or(Or(Shl(major, 16), minor), Shr(patch, 16))
    ensures MajorOf(PackPackageVersion(major, minor, patch)) == Or(Or(major, Shr(minor, 16)), Shr(patch, 32))
    ensures MinorOf(PackPackageVersion(major, minor, patch)) == Or(Low(minor, 16), Low(Shr(patch, 16), 16))
    ensures PatchOf(PackPackageVersion(major, minor, patch)) == Low(patch, 16)
  {
    var upper := Or(Shl(major, 32), Shl(minor, 16));
    ShrOr(upper, patch, 16);
    ShrOr(Shl(major, 32), Shl(minor, 16), 16);
    ShrShl(major, 32, 16);
    ShrShl(minor, 16, 16);
    ShrOr(Or(Shl(major, 16), minor), Shr(patch, 16), 16);
    ShrOr(Shl(major, 16), minor, 16);
    ShrShl(major, 16, 16);
    ShrShr(patch, 16, 16);
    ShrShr(PackPackageVersion(major, minor, patch), 16, 16);
    LowOr(Or(Shl(major, 16), minor), Shr(patch, 16), 16);
    LowOr(Shl(major, 16), minor, 16);
    LowShl(major, 16, 16);
    OrZero(Low(minor, 16));
    LowOr(upper, patch, 16);
    LowOr(Shl(major, 32), Shl(minor, 16), 16);
    LowShl(major, 32, 16);
    LowShl(minor, 16, 16);
    assert Or(0, 0) == 0;
    OrZero(Low(patch, 16));
  }

  lemma WellPackedFields(major: nat, minor: nat, patch: nat)
    requires Fits(minor, 16) && Fits(patch, 16)
    ensures MajorOf(PackPackageVersion(major, minor, patch)) == major
    ensures MinorOf(PackPackageVersion(major, minor, patch)) == minor
    ensures PatchOf(PackPackageVersion(major, minor, patch)) == patch
    ensures Shr(PackPackageVersion(major, minor, patch), 16) == Or(Shl(major, 16), minor)
  {
    PackedFields(major, minor, patch);
    ShrShr(patch, 16, 16);
    assert Shr(patch, 32) == Shr(0, 16);
    ShrOfZero(16);
    OrZero(major);
    LowFits(minor, 16);
    LowFits(patch, 16);
    LowFits(0, 16);
    OrZero(minor);
    OrZero(Or(Shl(major, 16), minor));
  }

  lemma {:induction false} ShrOfZero(k: nat)
    ensures Shr(0, k) == 0
    decreases k
  {
    if k != 0 {
      ShrOfZero(k - 1);
    }
  }

  /** Packing loses nothing exactly when minor and patch fit their 16 bits. */
  lemma PackRoundTripsIff(major: nat, minor: nat, patch: nat)
    ensures
      var v := PackPackageVersion(major, minor, patch);
      (MajorOf(v) == major && MinorOf(v) == minor && PatchOf(v) == patch) <==> (Fits(minor, 16) && Fits(patch, 16))
  {
    PackedFields(major, minor, patch);
    LowFits(patch, 16);
    LowFits(Shr(PackPackageVersion(major, minor, patch), 16), 16);
    if Fits(minor, 16) && Fits(patch, 16) {
      WellPackedFields(major, minor, patch);
    }
  }

  /** Both windows compare the given fields with those of every well-packed version. */
  ghost predicate WindowsMeanFields(major: nat, minor: nat, patch: nat) {
    forall major', minor', patch' | Fits(minor', 16) && Fits(patch', 16) ::
      WindowsCompare(PackPackageVersion(major, minor, patch), major, minor, major', minor', patch')
  }

  predicate WindowsCompare(v: Version, major: nat, minor: nat, major': nat, minor': nat, patch': nat) {
    var v' := PackPackageVersion(major', minor', patch');
    && (WindowAdmits(SameMajor, v, v') <==> major == major')
    && (WindowAdmits(SameMinor, v, v') <==> major == major' && minor == minor')
  }

  lemma {:induction false} HalvesDetermine(x: nat, y: nat, k: nat)
    ensures x == y <==> Shr(x, k) == Shr(y, k) && Low(x, k) == Low(y, k)
    decreases k
  {
    if k != 0 {
      HalvesDetermine(x / 2, y / 2, k - 1);
    }
  }

  /** The windows see a version as its packed major and minor, and compare exactly these. */
  lemma WindowsSeePackedFields(v: Version, major': nat, minor': nat, patch': nat)
    requires Fits(minor', 16) && Fits(patch', 16)
    ensures WindowsCompare(v, MajorOf(v), MinorOf(v), major', minor', patch')
  {
    var v' := PackPackageVersion(major', minor', patch');
    WellPackedFields(major', minor', patch');
    ShrShr(v, 16, 16);
    ShrShr(v', 16, 16);
    HalvesDetermine(Shr(v, 16), Shr(v', 16), 16);
  }

  /** So they mean the given fields exactly when packing keeps major and minor. */
  lemma WindowsMeanPackedFields(major: nat, minor: nat, patch: nat)
    ensures var v := PackPackageVersion(major, minor, patch);
            WindowsMeanFields(major, minor, patch) <==> MajorOf(v) == major && MinorOf(v) == minor
  {
    var v := PackPackageVersion(major, minor, patch);
    LowFits(Shr(v, 16), 16);
    ShrOfZero(16);
    if WindowsMeanFields(major, minor, patch) {
      WindowsSeePackedFields(v, MajorOf(v), MinorOf(v), 0);
      assert WindowsCompare(v, major, minor, MajorOf(v), MinorOf(v), 0);
    }
    if MajorOf(v) == major && MinorOf(v) == minor {
      forall major', minor', patch' | Fits(minor', 16) && Fits(patch', 16)
        ensures WindowsCompare(v, major, minor, major', minor', patch')
      {
        WindowsSeePackedFields(v, major', minor', patch');
      }
    }
  }

  /**
   The windows mean equal fields, against every well-packed version, exactly when the minor fits its 16 bits and the
   bits of the patch beyond its own 16 are already set in the minor and the major they spill into.
   */
  lemma WindowsMeanFieldsExactlyWhen(major: nat, minor: nat, patch: nat)
    ensures WindowsMeanFields(major, minor, patch)
       <==> && Fits(minor, 16)
            && Or(minor, Low(Shr(patch, 16), 16)) == minor
            && Or(major, Shr(patch, 32)) == major
  {
    WindowsMeanPackedFields(major, minor, patch);
    PackedFields(major, minor, patch);
    LowFits(minor, 16);
    LowFits(Shr(PackPackageVersion(major, minor, patch), 16), 16);
    OrZero(major);
  }

  /** For a patch of 32 bits, as the fields are typed, nothing spills into the major. */
  lemma WindowsMeanFieldsForWords(major: nat, minor: nat, patch: nat)
    requires Fits(patch, 32)
    ensures WindowsMeanFields(major, minor, patch) <==> Fits(minor, 16) && Or(minor, Shr(patch, 16)) == minor
  {
    WindowsMeanFieldsExactlyWhen(major, minor, patch);
    ShrShr(patch, 16, 16);
    LowFits(Shr(patch, 16), 16);
    OrZero(major);
  }

  /** Fields can be lost and the windows still mean them: 1.1.65536 does not round-trip. */
  lemma OverflowingPatchMayBeHarmless()
    ensures WindowsMeanFields(1, 1, 0x1_0000)
    ensures PatchOf(PackPackageVersion(1, 1, 0x1_0000)) != 0x1_0000
  {
    ShlIsProduct();
    ShrShl(1, 16, 16);
    ShrOfOne();
    LowShl(1, 16, 16);
    ShrShr(0x1_0000, 16, 16);
    OrOneTwo();
    WindowsMeanFieldsForWords(1, 1, 0x1_0000);
    PackedFields(1, 1, 0x1_0000);
  }

  lemma ShrOfOne()
    ensures Shr(1, 16) == 0
  {
    ShrOfZero(15);
  }

  /** Without that bound the coarse window mixes fields: 1.65536.0 and 1.0.0 share a major, 1.131072.0 does not. */
  lemma OverflowingMinorChangesMajor()
    ensures MajorOf(PackPackageVersion(1, 0x1_0000, 0)) == 1
    ensures MajorOf(PackPackageVersion(1, 0x2_0000, 0)) == 3
    ensures !WindowAdmits(SameMajor, PackPackageVersion(1, 0x1_0000, 0), PackPackageVersion(1, 0x2_0000, 0))
    ensures !WindowsMeanFields(1, 0x1_0000, 0)
  {
    WindowsMeanFieldsExactlyWhen(1, 0x1_0000, 0);
    PackedFields(1, 0x1_0000, 0);
    PackedFields(1, 0x2_0000, 0);
    ShrShl(1, 16, 16);
    ShrShl(2, 16, 16);
    ShlIsProduct();
    ShrOfZero(32);
    OrZero(Or(1, 1));
    OrZero(Or(1, 2));
    OrOneTwo();
  }

  lemma ShlIsProduct()
    ensures Shl(1, 16) == 0x1_0000 && Shl(2, 16) == 0x2_0000
  {
    assert Shl(1, 16) == Shl(2, 15) == Shl(4, 14) == Shl(8, 13) == Shl(16, 12) == Shl(32, 11) == Shl(64, 10)
        == Shl(128, 9) == Shl(256, 8) == Shl(512, 7) == Shl(1024, 6) == Shl(2048, 5) == Shl(4096, 4)
        == Shl(8192, 3) == Shl(16384, 2) == Shl(32768, 1) == Shl(65536, 0);
    ShlDoubles(1, 16);
  }

  lemma OrOneTwo()
    ensures Or(1, 1) == 1 && Or(1, 2) == 3
  {
    assert Or(0, 0) == 0;
    assert Or(0, 1) == 1 + 2 * Or(0, 0);
  }

  /** The finer window implies the coarser one. */
  lemma AdmittedKeepsMajor(window: CompatibilityWindow, current: Version, target: Version)
    requires WindowAdmits(window, current, target)
    ensures MajorOf(current) == MajorOf(target)
  {
    ShrShr(current, 16, 16);
    ShrShr(target, 16, 16);
  }
}
