/**
 * The volume crossfade of the karaoke manager: the original-vocal volume and
 * the accompaniment volume, both percentages, move two points per mixed
 * buffer toward (100, 0) when the original track is selected and toward
 * (0, 100) otherwise.
 */
module Ramp {
  import opened Pcm

  /** The pair of volume fields, as percentages. */
  datatype Volumes = Volumes(original: int, music: int)

  /** The field initialisers of the manager: the original silent, the accompaniment at full volume. */
  const INITIAL: Volumes := Volumes(0, 100)

  /** The crossfade's end point when the original vocal track is selected. */
  const ORIGINAL_ONLY: Volumes := Volumes(100, 0)

  /** The crossfade's end point when the accompaniment is selected. */
  const MUSIC_ONLY: Volumes := Volumes(0, 100)

  /** The amount by which one ramp step moves each volume. */
  const STEP: int := 2

  /**
   * The invariant the crossfade keeps: both volumes are percentages, they
   * add up to 100, and they stay on the even grid that the step of 2 walks.
   */
  predicate Balanced(v: Volumes) {
    0 <= v.original <= 100 && 0 <= v.music <= 100 &&
    v.original + v.music == 100 && v.original % 2 == 0
  }

  /**
   * The volumes `prepare` resets to before decoding starts: full original
   * volume when the original track is selected, full accompaniment otherwise.
   */
  function Reset(isOriginal: bool): (r: Volumes)
    ensures Balanced(r)
    ensures isOriginal ==> r == ORIGINAL_ONLY
    ensures !isOriginal ==> r == MUSIC_ONLY
  {
    if isOriginal then Volumes(100, 0) else Volumes(0, 100)
  }

  /**
   * One step of `modifyOriginalVolume`: raise the original by 2 while it is
   * below 100, lower the accompaniment by 2 while it is above 0.
   */
  function TowardOriginal(v: Volumes): (r: Volumes)
    ensures Balanced(v) ==> Balanced(r)
    ensures Balanced(v) ==> r.original == Min(100, v.original + STEP)
    ensures v == ORIGINAL_ONLY ==> r == v
  {
    Volumes(if v.original < 100 then v.original + 2 else v.original,
            if v.music > 0 then v.music - 2 else v.music)
  }

  /**
   * One step of `modifyMusicVolume`: lower the original by 2 while it is
   * above 0, raise the accompaniment by 2 while it is below 100.
   */
  function TowardMusic(v: Volumes): (r: Volumes)
    ensures Balanced(v) ==> Balanced(r)
    ensures Balanced(v) ==> r.music == Min(100, v.music + STEP)
    ensures v == MUSIC_ONLY ==> r == v
  {
    Volumes(if v.original > 0 then v.original - 2 else v.original,
            if v.music < 100 then v.music + 2 else v.music)
  }

  /** The volumes after `n` consecutive steps toward the original. */
  function RampToOriginal(v: Volumes, n: nat): Volumes {
    if n == 0 then v else TowardOriginal(RampToOriginal(v, n - 1))
  }

  /** The volumes after `n` consecutive steps toward the accompaniment. */
  function RampToMusic(v: Volumes, n: nat): Volumes {
    if n == 0 then v else TowardMusic(RampToMusic(v, n - 1))
  }

  /**
   * From any balanced state, `n` steps toward the original raise the original
   * volume by 2 each until it saturates at 100, the accompaniment mirroring it.
   */
  lemma {:induction false} RampToOriginalValue(v: Volumes, n: nat)
    requires Balanced(v)
    ensures Balanced(RampToOriginal(v, n))
    ensures RampToOriginal(v, n).original == Min(100, v.original + STEP * n)
    ensures RampToOriginal(v, n).music == 100 - Min(100, v.original + STEP * n)
  {
    if n > 0 {
      RampToOriginalValue(v, n - 1);
    }
  }

  /** The mirror image of `RampToOriginalValue` for steps toward the accompaniment. */
  lemma {:induction false} RampToMusicValue(v: Volumes, n: nat)
    requires Balanced(v)
    ensures Balanced(RampToMusic(v, n))
    ensures RampToMusic(v, n).music == Min(100, v.music + STEP * n)
    ensures RampToMusic(v, n).original == 100 - Min(100, v.music + STEP * n)
  {
    if n > 0 {
      RampToMusicValue(v, n - 1);
    }
  }

  /**
   * The crossfade completes: 50 steps toward the original (one per mixed
   * buffer) reach (100, 0) from every balanced state, and further steps leave
   * it there; likewise toward the accompaniment.
   */
  lemma RampConverges(v: Volumes, n: nat)
    requires Balanced(v) && n >= 50
    ensures RampToOriginal(v, n) == ORIGINAL_ONLY
    ensures RampToMusic(v, n) == MUSIC_ONLY
  {
    RampToOriginalValue(v, n);
    RampToMusicValue(v, n);
  }

  /** A step toward the accompaniment undoes a step toward the original that actually moved. */
  lemma StepsUndo(v: Volumes)
    requires Balanced(v) && v.original < 100
    ensures TowardMusic(TowardOriginal(v)) == v
  {
  }
}
