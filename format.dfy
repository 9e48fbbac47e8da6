/**
 * `FormatHandler`: the sub-format folder of n64 and nds platforms, read
 * from the source folder's name.
 */
module FormatHandling {
  import opened Text

  /** A filesystem path as its list of components; `/` appends one. */
  type Path = seq<string>

  /** `detect_n64_format`: byte order named in the folder, big-endian first. */
  function DetectN64Format(folderName: string): (r: string)
    ensures r in {"bigendian", "byteswapped", "standard"}
    ensures r == "bigendian" <==> Contains(LowerStr(folderName), "bigendian")
    ensures r == "byteswapped" <==>
      !Contains(LowerStr(folderName), "bigendian") && Contains(LowerStr(folderName), "byteswapped")
  {
    var lower := LowerStr(folderName);
    if Contains(lower, "bigendian") then "bigendian"
    else if Contains(lower, "byteswapped") then "byteswapped"
    else "standard"
  }

  /** `detect_nds_format`: encryption state named in the folder, encrypted first. */
  function DetectNdsFormat(folderName: string): (r: string)
    ensures r in {"encrypted", "decrypted", "standard"}
    ensures r == "encrypted" <==> Contains(LowerStr(folderName), "encrypted")
    ensures r == "decrypted" <==>
      !Contains(LowerStr(folderName), "encrypted") && Contains(LowerStr(folderName), "decrypted")
  {
    var lower := LowerStr(folderName);
    if Contains(lower, "encrypted") then "encrypted"
    else if Contains(lower, "decrypted") then "decrypted"
    else "standard"
  }

  /**
   * `get_target_path`: the platform folder under the base, with one more
   * level for the format of n64 and nds folders.
   */
  function TargetPath(platform: string, sourceFolder: string, targetBase: Path): (r: Path)
    ensures |r| == |targetBase| + (if platform == "n64" || platform == "nds" then 2 else 1)
    ensures r[..|targetBase| + 1] == targetBase + [platform]
    ensures platform == "n64" ==> r[|r| - 1] == DetectN64Format(sourceFolder)
    ensures platform == "nds" ==> r[|r| - 1] == DetectNdsFormat(sourceFolder)
  {
    if platform == "n64" then targetBase + [platform, DetectN64Format(sourceFolder)]
    else if platform == "nds" then targetBase + [platform, DetectNdsFormat(sourceFolder)]
    else targetBase + [platform]
  }

  // ---------------------------------------------------------------------
  // Case does not matter

  lemma LowerIdempotent(c: char)
    ensures Lower(Lower(c)) == Lower(c)
  {
  }

  /** Lower-casing twice is lower-casing once. */
  lemma LowerStrIdempotent(s: string)
    ensures LowerStr(LowerStr(s)) == LowerStr(s)
  {
    forall i | 0 <= i < |s|
      ensures LowerStr(LowerStr(s))[i] == LowerStr(s)[i]
    {
      LowerIdempotent(s[i]);
    }
  }

  /** The detected formats ignore case. */
  lemma FormatsIgnoreCase(folderName: string)
    ensures DetectN64Format(LowerStr(folderName)) == DetectN64Format(folderName)
    ensures DetectNdsFormat(LowerStr(folderName)) == DetectNdsFormat(folderName)
  {
    LowerStrIdempotent(folderName);
  }

  /** Lower-casing a concatenation lower-cases each piece. */
  lemma LowerStrConcat(x: string, w: string, y: string)
    ensures LowerStr(x + w + y) == LowerStr(x) + LowerStr(w) + LowerStr(y)
  {
  }

  /** A lower-case word occurring anywhere, in any case, is found. */
  lemma ContainsLowered(x: string, w: string, y: string)
    requires LowerStr(w) == w
    ensures Contains(LowerStr(x + w + y), w)
  {
    LowerStrConcat(x, w, y);
    var s := LowerStr(x + w + y);
    assert s[|x|..|x| + |w|] == w;
    assert OccursAt(s, |x|, w);
  }

  /** A folder naming "bigendian" in any case and position goes to the big-endian folder. */
  lemma BigEndianAnywhere(x: string, word: string, y: string)
    requires LowerStr(word) == "bigendian"
    ensures DetectN64Format(x + word + y) == "bigendian"
  {
    LowerStrConcat(x, word, y);
    ContainsLowered(LowerStr(x), "bigendian", LowerStr(y));
    LowerStrIdempotent(x);
    LowerStrIdempotent(y);
    LowerStrConcat(LowerStr(x), "bigendian", LowerStr(y));
  }

  /** A folder naming "encrypted" in any case and position is encrypted, even if it also says "decrypted". */
  lemma EncryptedAnywhere(x: string, word: string, y: string)
    requires LowerStr(word) == "encrypted"
    ensures DetectNdsFormat(x + word + y) == "encrypted"
  {
    LowerStrConcat(x, word, y);
    ContainsLowered(LowerStr(x), "encrypted", LowerStr(y));
    LowerStrIdempotent(x);
    LowerStrIdempotent(y);
    LowerStrConcat(LowerStr(x), "encrypted", LowerStr(y));
  }
}
