/**
 * SnsSerializer: a Kotlin Boolean carried on the wire as the string "Y" or "N".
 * Decoding is lenient: every string other than "Y" reads as false.
 */
module SnsSerializer {

  /** `deserialize`: `decodeString() == "Y"`. */
  function Deserialize(s: string): bool {
    s == "Y"
  }

  /** `serialize`: "Y" for true, "N" for false. */
  function Serialize(b: bool): (s: string)
    ensures Deserialize(s) == b
    ensures s == "Y" || s == "N"
  {
    if b then "Y" else "N"
  }

  lemma RoundTrip(b: bool)
    ensures Deserialize(Serialize(b)) == b
  {
  }

  lemma SerializeImage(b: bool)
    ensures Serialize(b) in {"Y", "N"}
    ensures (Serialize(b) == "Y") == b
  {
  }

  /** Only the exact string "Y" reads as true. */
  lemma DeserializeTrueIff(s: string)
    ensures Deserialize(s) <==> s == "Y"
  {
  }

  /** Decoding never fails: lower-case, empty and "N" give false like any other string. */
  lemma Leniency()
    ensures !Deserialize("y") && !Deserialize("") && !Deserialize("N") && !Deserialize("YES")
  {
  }

  /** Re-encoding a decoded flag gives back the wire string exactly when it was "Y" or "N". */
  lemma ReencodeIff(s: string)
    ensures Serialize(Deserialize(s)) == s <==> s in {"Y", "N"}
  {
  }
}
