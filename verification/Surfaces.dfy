/** The shape contract of a declared `surfaces` segment. */
module Surfaces {
  import opened Wrappers
  import opened Records

  const MAX_SURFACES_PER_SEGMENT := 100_000
  const MAX_SURFACE_TEXT_BYTES := 255

  predicate ValidText(text: seq<byte>) {
    0 < |text| <= MAX_SURFACE_TEXT_BYTES && 0 !in text
  }

  predicate SeenBefore(surfaces: seq<Surface>, i: nat)
    requires i < |surfaces|
  {
    exists j :: 0 <= j < i && surfaces[j].surfaceId == surfaces[i].surfaceId
  }

  function Violation(surfaces: seq<Surface>, i: nat): Option<SegmentError>
    requires i < |surfaces|
  {
    if SeenBefore(surfaces, i) then Some(DuplicateSurfaceId)
    else if !ValidText(surfaces[i].title) then Some(InvalidTitle)
    else if surfaces[i].entryName.Some? && !ValidText(surfaces[i].entryName.value) then Some(InvalidEntryName)
    else None
  }

  function FirstViolation(surfaces: seq<Surface>, from: nat): Option<SegmentError>
    requires from <= |surfaces|
    decreases |surfaces| - from
  {
    if from == |surfaces| then None
    else if Violation(surfaces, from).Some? then Violation(surfaces, from)
    else FirstViolation(surfaces, from + 1)
  }

  function SegmentVerdict(surfaces: seq<Surface>): Option<SegmentError> {
    if |surfaces| == 0 then Some(Empty)
    else if |surfaces| > MAX_SURFACES_PER_SEGMENT then Some(TooManySurfaces)
    else FirstViolation(surfaces, 0)
  }

  predicate DistinctIds(surfaces: seq<Surface>) {
    forall i, j :: 0 <= i < j < |surfaces| ==> surfaces[i].surfaceId != surfaces[j].surfaceId
  }

  predicate ValidTexts(surfaces: seq<Surface>) {
    forall i :: 0 <= i < |surfaces| ==>
      ValidText(surfaces[i].title) &&
      (surfaces[i].entryName.Some? ==> ValidText(surfaces[i].entryName.value))
  }

  lemma {:induction false} NoViolationFrom(surfaces: seq<Surface>, from: nat)
    requires from <= |surfaces|
    ensures FirstViolation(surfaces, from).None? <==>
            forall i :: from <= i < |surfaces| ==> Violation(surfaces, i).None?
    decreases |surfaces| - from
  {
    if from < |surfaces| {
      NoViolationFrom(surfaces, from + 1);
    }
  }

  /** A segment is admitted exactly when it is bounded, non-empty, duplicate-free and within its text bounds. */
  lemma AdmittedIffWellFormed(surfaces: seq<Surface>)
    ensures SegmentVerdict(surfaces).None? <==>
            0 < |surfaces| <= MAX_SURFACES_PER_SEGMENT && DistinctIds(surfaces) && ValidTexts(surfaces)
  {
    NoViolationFrom(surfaces, 0);
    if DistinctIds(surfaces) && ValidTexts(surfaces) {
      forall i | 0 <= i < |surfaces| ensures Violation(surfaces, i).None? {
        assert !SeenBefore(surfaces, i);
      }
    }
    if forall i :: 0 <= i < |surfaces| ==> Violation(surfaces, i).None? {
      forall i, j | 0 <= i < j < |surfaces| ensures surfaces[i].surfaceId != surfaces[j].surfaceId {
        assert Violation(surfaces, j).None?;
        assert !SeenBefore(surfaces, j);
      }
      forall i | 0 <= i < |surfaces|
        ensures ValidText(surfaces[i].title) &&
                (surfaces[i].entryName.Some? ==> ValidText(surfaces[i].entryName.value))
      {
        assert Violation(surfaces, i).None?;
      }
    }
  }

  /** Scans once, keeping the identities seen so far, and reports the first violation. */
  method ValidateSurfaceDeclarations(surfaces: seq<Surface>) returns (verdict: Option<SegmentError>)
    ensures verdict == SegmentVerdict(surfaces)
  {
    if |surfaces| == 0 {
      return Some(Empty);
    }
    if |surfaces| > MAX_SURFACES_PER_SEGMENT {
      return Some(TooManySurfaces);
    }
    var seen: set<nat> := {};
    for i := 0 to |surfaces|
      invariant forall id :: id in seen <==> exists j :: 0 <= j < i && surfaces[j].surfaceId == id
      invariant FirstViolation(surfaces, 0) == FirstViolation(surfaces, i)
    {
      var surface := surfaces[i];
      if surface.surfaceId in seen {
        return Some(DuplicateSurfaceId);
      }
      seen := seen + {surface.surfaceId};
      if !ValidText(surface.title) {
        return Some(InvalidTitle);
      }
      if surface.entryName.Some? && !ValidText(surface.entryName.value) {
        return Some(InvalidEntryName);
      }
    }
    return None;
  }

  function EncodeKind(kind: SurfaceKind): nat {
    match kind
    case Window => 1
    case Panel => 2
  }

  function DecodeKind(value: int): Option<SurfaceKind> {
    if value == 1 then Some(Window) else if value == 2 then Some(Panel) else None
  }

  /** The durable kind byte decodes to a kind exactly when it is that kind's encoding. */
  lemma KindRoundTrip(kind: SurfaceKind, value: int)
    ensures DecodeKind(value) == Some(kind) <==> value == EncodeKind(kind)
  {
  }
}
