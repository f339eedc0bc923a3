/** Settings, and the adaptive choice of passage sizes in exact integer arithmetic. */
module Config {
  import opened Bytes
  import opened Chunker
  import PassageShape

  type Positive = n: nat | n > 0 witness 1

  /** Settings of a deployment, whatever they are: 16 MB, 32 and 3 unless overridden. */
  const MAX_CHUNK_BYTES: Positive
  const CLAIM_BATCH_SIZE: Positive
  const MAX_RETRIES: Positive

  /** The sizing constants as shipped. */
  const MAX_FILE_BYTES: nat := 10 * 1024 * 1024 * 1024
  const INDEX_MEMORY_BUDGET_BYTES: nat := 1024 * 1024 * 1024
  const EMBEDDING_DIM: nat := 384
  const PASSAGE_MAX_TARGET_BYTES: nat := 6000

  /** The default advance is less than the stride that the memory budget needs, which
      is `totalSize` divided by the number of vectors that fit. */
  predicate NeedsCoarser(totalSize: nat) {
    totalSize * EMBEDDING_DIM > (DEFAULT_PARAMS.target - DEFAULT_PARAMS.overlap) * INDEX_MEMORY_BUDGET_BYTES
  }

  /** Five fourths of the needed stride, rounded down, up to the ceiling. */
  function CoarseTarget(totalSize: nat): int {
    Min(totalSize * EMBEDDING_DIM * 5 / (INDEX_MEMORY_BUDGET_BYTES * 4), PASSAGE_MAX_TARGET_BYTES)
  }

  function PassageSizeFor(totalSize: nat): Params {
    if totalSize > 0 && NeedsCoarser(totalSize) then
      var target := CoarseTarget(totalSize);
      Sized(target, Max(target / 5, DEFAULT_PARAMS.overlap))
    else
      Sized(DEFAULT_PARAMS.target, DEFAULT_PARAMS.overlap)
  }

  function Sized(target: int, overlap: int): Params {
    Params(Max(target, 0), Max(target * 3, DEFAULT_PARAMS.max), Max(overlap, 0))
  }

  /** Every choice makes the chunker safe, its ends rise, and stays readable. */
  lemma SizesAreSafe(totalSize: nat)
    ensures var p := PassageSizeFor(totalSize);
            && p.Sane() && PassageShape.Advancing(p)
            && DEFAULT_PARAMS.target <= p.target <= PASSAGE_MAX_TARGET_BYTES
            && DEFAULT_PARAMS.max <= p.max <= 3 * PASSAGE_MAX_TARGET_BYTES
            && p.target <= p.max && p.max - 3 - p.overlap >= p.target / 2
            && p.target / 2 - p.overlap >= DEFAULT_PARAMS.target / 2 - DEFAULT_PARAMS.overlap
  {
  }

  /** The sizes in full, in bytes: 600, 2048 and 120 as long as an advance of 480 bytes
      leaves no more vectors of 384 numbers than 1 GiB allows. Beyond that the target is
      five fourths of the advance that would, rounded down, at most 6000; the overlap a
      fifth of it, rounded down; and the maximum three times the target, at least 2048. */
  lemma SizesDetermined(totalSize: nat)
    ensures var p, demand := PassageSizeFor(totalSize), totalSize * 384;
            if demand <= 480 * 0x4000_0000
            then p.target == 600 && p.max == 2048 && p.overlap == 120
            else
              && (if 5 * demand >= 6000 * 4 * 0x4000_0000 then p.target == 6000
                  else p.target < 6000 && p.target * 4 * 0x4000_0000 <= 5 * demand < (p.target + 1) * 4 * 0x4000_0000)
              && 5 * p.overlap <= p.target < 5 * (p.overlap + 1)
              && p.max >= 3 * p.target && p.max >= 2048 && (p.max == 3 * p.target || p.max == 2048)
  {
  }

  /** From which size on the overlap exceeds the default target. */
  lemma OverlapThreshold(totalSize: nat)
    ensures PassageSizeFor(totalSize).overlap <= DEFAULT_PARAMS.target
            <==> totalSize * EMBEDDING_DIM * 5 < 3005 * 4 * INDEX_MEMORY_BUDGET_BYTES
  {
  }

  lemma LargestSizes()
    ensures PassageSizeFor(MAX_FILE_BYTES) == Params(4800, 14400, 960)
  {
  }

  /** A larger declared size never gives smaller passages. */
  lemma TargetIsMonotone(smaller: nat, larger: nat)
    requires smaller <= larger
    ensures PassageSizeFor(smaller).target <= PassageSizeFor(larger).target
  {
    assert smaller * EMBEDDING_DIM <= larger * EMBEDDING_DIM;
    SizesAreSafe(larger);
  }

  /** For every file the service accepts, passages cut at the target advance so
      far that the file's vectors stay within the memory budget: by more than the
      needed stride less one byte. */
  lemma StrideMeetsBudget(totalSize: nat)
    requires totalSize <= MAX_FILE_BYTES
    ensures var p := PassageSizeFor(totalSize);
            (p.target - p.overlap + 1) * INDEX_MEMORY_BUDGET_BYTES > totalSize * EMBEDDING_DIM
  {
  }
}
