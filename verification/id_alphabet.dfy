/** The alphabet of YouTube video identifiers: `[0-9A-Za-z_-]`. */
module IdAlphabet {

  /** Length of a video identifier; both extractors capture exactly this many characters. */
  const IdLength: nat := 11

  predicate IsIdChar(c: char) {
    ('0' <= c <= '9') || ('A' <= c <= 'Z') || ('a' <= c <= 'z') || c == '_' || c == '-'
  }

  /** An identifier of the canonical shape: eleven characters of the alphabet. */
  predicate IsCanonicalId(id: string) {
    |id| == IdLength && forall i :: 0 <= i < |id| ==> IsIdChar(id[i])
  }
}
