/**
 * FFmpeg error tags, as decoded by c/ffav/get_tag_from_err.c.
 *
 * libavutil builds most of its error codes as FFERRTAG(a, b, c, d), the
 * negation of MKTAG(a, b, c, d) = a | b << 8 | c << 16 | d << 24. The program
 * takes a code from the command line, negates it back and splits the result
 * into its four bytes. C's 32-bit `int` is modelled as `bv32` (two's
 * complement, so negation wraps); the bytes are modelled as 0..255 whatever
 * the signedness of `char`.
 */
module ErrTag {

  /** The four characters of a tag, lowest byte first. */
  datatype Tag = Tag(a: bv8, b: bv8, c: bv8, d: bv8)

  /** MKTAG: pack four bytes into a 32-bit word, `a` in the lowest byte. */
  function MkTag(t: Tag): bv32 {
    (t.a as bv32) | ((t.b as bv32) << 8) | ((t.c as bv32) << 16) | ((t.d as bv32) << 24)
  }

  /** FFERRTAG: the (negative) error code of a tag, as a mathematical integer. */
  function FfErrTag(t: Tag): int {
    -(MkTag(t) as int)
  }

  /** The byte split of lines 12-15: each byte is one 8-bit field of `err`. */
  function SplitTag(err: bv32): (t: Tag)
    ensures t.a as bv32 == err % 0x100
    ensures t.b as bv32 == err / 0x100 % 0x100
    ensures t.c as bv32 == err / 0x1_0000 % 0x100
    ensures t.d as bv32 == err / 0x100_0000
  {
    Tag((err & 0xFF) as bv8,
        ((err & 0xFF00) >> 8) as bv8,
        ((err & 0xFF_0000) >> 16) as bv8,
        ((err & 0xFF00_0000) >> 24) as bv8)
  }

  /** The split is the inverse of MKTAG, in both directions. */
  lemma SplitOfMkTag(t: Tag)
    ensures SplitTag(MkTag(t)) == t
  {
  }

  lemma MkTagOfSplit(err: bv32)
    ensures MkTag(SplitTag(err)) == err
  {
  }

  /** What the program computes from its argument: `err = -1 * atoi(argv[1])` in 32-bit arithmetic,
      the four tag bytes of `err`, and the code handed to av_strerror, which is `-err`. */
  function DescribeError(arg: bv32): (r: (Tag, bv32))
    ensures r.1 == arg
    ensures MkTag(r.0) == 0 - arg
  {
    var err := 0 - arg;
    (SplitTag(err), 0 - err)
  }

  /** AVERROR_EOF is FFERRTAG('E', 'O', 'F', ' '). */
  const EofTag: Tag := Tag(0x45, 0x4F, 0x46, 0x20)

  /** Given the code of AVERROR_EOF (-541478725), the program recovers the characters 'E', 'O', 'F', ' '. */
  lemma EofCode()
    ensures FfErrTag(EofTag) == -541478725
    ensures DescribeError(0 - 541478725).0 == EofTag
  {
    assert MkTag(EofTag) == 0x2046_4F45;
  }
}
