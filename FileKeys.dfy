/** Names under which uploaded images are stored. Both the registration form (avatars) and
    the composer (post images) derive an object name the same way: sixteen random draws,
    each mapped into a 62-character alphanumeric alphabet, then `_` and the original file
    name, all under a fixed folder. The random source is an input sequence of draws. */
module FileKeys {

  import opened Wrappers
  import opened Backend

  /** The alphabet the random characters are drawn from, in the order the source lists it:
      the 62-character literal `a`…`z` `A`…`Z` `0`…`9`, written here as its three ranges. */
  const Alphabet: string := Lowercase + Uppercase + Digits

  /** Number of random draws, and so of random characters, in a key. */
  const KeyLength: nat := 16

  /** Folders of the object store. */
  const AvatarFolder: string := "avatars"
  const ImageFolder: string := "images"

  /** The alphanumeric characters, defined by code-point ranges independently of `Alphabet`. */
  predicate IsAlphanumeric(c: char) {
    ('a' <= c <= 'z') || ('A' <= c <= 'Z') || ('0' <= c <= '9')
  }

  /** The character at position `i` of the alphabet, computed from the three ranges. */
  function AlphabetChar(i: nat): (c: char)
    requires i < 62
    ensures IsAlphanumeric(c)
  {
    if i < 26 then ('a' as int + i) as char
    else if i < 52 then ('A' as int + (i - 26)) as char
    else ('0' as int + (i - 52)) as char
  }

  /** The three ranges that make up the alphabet literal. */
  const Lowercase: string := "abcdefghijklmnopqrstuvwxyz"
  const Uppercase: string := "ABCDEFGHIJKLMNOPQRSTUVWXYZ"
  const Digits: string := "0123456789"

  /** Each range holds consecutive code points from its first character. */
  lemma RangeCodes()
    ensures forall i :: 0 <= i < 26 ==> Lowercase[i] as int == 'a' as int + i
    ensures forall i :: 0 <= i < 26 ==> Uppercase[i] as int == 'A' as int + i
    ensures forall i :: 0 <= i < 10 ==> Digits[i] as int == '0' as int + i
  {
  }

  /** Position `i` of the alphabet holds the character the three ranges put there. */
  lemma AlphabetAt(i: nat)
    requires i < 62
    ensures |Alphabet| == 62 && Alphabet[i] == AlphabetChar(i)
  {
    RangeCodes();
    if i < 26 {
      assert Alphabet[i] == Lowercase[i];
    } else if i < 52 {
      assert Alphabet[i] == Uppercase[i - 26];
    } else {
      assert Alphabet[i] == Digits[i - 52];
    }
  }

  /** The whole alphabet, position by position. */
  lemma AlphabetLayout()
    ensures |Alphabet| == 62
    ensures forall i :: 0 <= i < 62 ==> Alphabet[i] == AlphabetChar(i)
  {
    AlphabetAt(0);
    forall i | 0 <= i < 62 ensures Alphabet[i] == AlphabetChar(i) {
      AlphabetAt(i);
    }
  }

  /** Every character of the alphabet is alphanumeric and every alphanumeric character
      occurs in it. */
  lemma AlphabetIsAlphanumeric()
    ensures |Alphabet| == 62
    ensures forall i :: 0 <= i < |Alphabet| ==> IsAlphanumeric(Alphabet[i])
    ensures forall c :: IsAlphanumeric(c) ==> c in Alphabet
  {
    AlphabetLayout();
    forall c | IsAlphanumeric(c) ensures c in Alphabet {
      assert Alphabet[IndexOf(c)] == c;
    }
  }

  /** No character occurs twice in the alphabet. */
  lemma AlphabetDistinct(i: nat, j: nat)
    requires i < |Alphabet| && j < |Alphabet|
    requires Alphabet[i] == Alphabet[j]
    ensures i == j
  {
    AlphabetLayout();
    assert AlphabetChar(i) == AlphabetChar(j);
  }

  /** The random characters: draw `n` becomes the alphabet character at `n` modulo 62. */
  function RandomChars(draws: seq<nat>): (key: string)
    ensures |key| == |draws|
    ensures forall i :: 0 <= i < |draws| ==> key[i] == Alphabet[draws[i] % 62]
  {
    seq(|draws|, i requires 0 <= i < |draws| => Alphabet[draws[i] % |Alphabet|])
  }

  /** A key is made of alphanumeric characters only. */
  lemma RandomCharsAlphanumeric(draws: seq<nat>)
    ensures forall c :: c in RandomChars(draws) ==> IsAlphanumeric(c)
  {
    AlphabetIsAlphanumeric();
    var key := RandomChars(draws);
    forall c | c in key ensures IsAlphanumeric(c) {
      var i :| 0 <= i < |key| && key[i] == c;
      assert c == Alphabet[draws[i] % 62];
    }
  }

  /** The key determines every draw modulo 62: two draw sequences with the same key have the
      same length and agree, position by position, on the residue that picked the character. */
  lemma RandomCharsDetermineResidues(a: seq<nat>, b: seq<nat>, i: nat)
    requires RandomChars(a) == RandomChars(b)
    requires i < |a|
    ensures |a| == |b| && a[i] % 62 == b[i] % 62
  {
    var ka, kb := RandomChars(a), RandomChars(b);
    assert ka[i] == kb[i];
    AlphabetDistinct(a[i] % 62, b[i] % 62);
  }

  /** Every string of alphanumeric characters is the key of some draws: one draw per
      character, its position in the alphabet. */
  function DrawsFor(key: string): (draws: seq<nat>)
    requires forall c :: c in key ==> IsAlphanumeric(c)
    ensures |draws| == |key|
    ensures forall i :: 0 <= i < |key| ==> draws[i] < |Alphabet| && Alphabet[draws[i]] == key[i]
    ensures RandomChars(draws) == key
  {
    var draws := seq(|key|, i requires 0 <= i < |key| => IndexOf(key[i]));
    PositionsGiveKey(key, draws);
    draws
  }

  /** Draws that are the alphabet positions of a key's characters map back to that key. */
  lemma PositionsGiveKey(key: string, draws: seq<nat>)
    requires |draws| == |key|
    requires forall i :: 0 <= i < |key| ==> draws[i] < 62 && Alphabet[draws[i]] == key[i]
    ensures RandomChars(draws) == key
  {
    var chars := RandomChars(draws);
    forall i | 0 <= i < |key| ensures chars[i] == key[i] {
      SmallResidue(draws[i]);
    }
  }

  /** A draw already below 62 is its own residue. */
  lemma SmallResidue(n: nat)
    requires n < 62
    ensures n % 62 == n
  {
  }

  /** Position of an alphanumeric character in the alphabet. */
  function IndexOf(c: char): (i: nat)
    requires IsAlphanumeric(c)
    ensures i < |Alphabet| && Alphabet[i] == c
  {
    AlphabetLayout();
    if 'a' <= c <= 'z' then c as int - 'a' as int
    else if 'A' <= c <= 'Z' then c as int - 'A' as int + 26
    else c as int - '0' as int + 52
  }

  /** The stored file name: the key, an underscore, the original file name. */
  function FileName(key: string, originalName: string): (fileName: string)
    ensures |fileName| == |key| + 1 + |originalName|
    ensures fileName[..|key|] == key && fileName[|key|] == '_' && fileName[|key| + 1..] == originalName
  {
    key + "_" + originalName
  }

  /** Reads a stored file name back into its key and original name. */
  function SplitFileName(fileName: string): (parts: Option<(string, string)>)
    ensures parts.Some? ==> |parts.value.0| == KeyLength
  {
    if |fileName| > KeyLength && fileName[KeyLength] == '_'
    then Some((fileName[..KeyLength], fileName[KeyLength + 1..]))
    else None
  }

  /** A key of the right length and any original name are recovered from the file name,
      and every name that splits is the file name of its parts. */
  lemma FileNameRoundTrip(key: string, originalName: string, fileName: string)
    ensures |key| == KeyLength ==> SplitFileName(FileName(key, originalName)) == Some((key, originalName))
    ensures SplitFileName(fileName) == Some((key, originalName)) ==>
            |key| == KeyLength && FileName(key, originalName) == fileName
  {
    var f := FileName(key, originalName);
    if |key| == KeyLength {
      assert f[..KeyLength] == key;
      assert f[KeyLength + 1..] == originalName;
    }
    if SplitFileName(fileName) == Some((key, originalName)) {
      assert fileName == fileName[..KeyLength] + [fileName[KeyLength]] + fileName[KeyLength + 1..];
    }
  }

  /** The path of an object in the store: a folder, a slash, the object's name. Writing
      `folder/name` and taking the child `name` of the reference `folder` name the same path. */
  function StoragePath(folder: string, name: string): (path: string)
    ensures |path| == |folder| + 1 + |name|
    ensures path[..|folder|] == folder && path[|folder|] == '/' && path[|folder| + 1..] == name
  {
    folder + "/" + name
  }

  /** The path an image is uploaded to and its download URL is asked for: the folder, a
      slash, then a file name made of one alphanumeric character per draw, `_` and the
      original name. With `KeyLength` draws the file name splits back into that key and the
      original name. */
  function UploadPath(folder: string, draws: seq<nat>, file: File): (path: string)
    ensures |path| == |folder| + 1 + |draws| + 1 + |file.name|
    ensures path[..|folder| + 1] == folder + "/"
    ensures forall i :: |folder| + 1 <= i < |folder| + 1 + |draws| ==> IsAlphanumeric(path[i])
    ensures |draws| == KeyLength ==>
              SplitFileName(path[|folder| + 1..]) == Some((RandomChars(draws), file.name))
  {
    var key := RandomChars(draws);
    var fileName := FileName(key, file.name);
    var path := StoragePath(folder, fileName);
    FileNameRoundTrip(key, file.name, fileName);
    AlphabetIsAlphanumeric();
    assert forall i :: |folder| + 1 <= i < |folder| + 1 + |draws| ==> path[i] == key[i - |folder| - 1];
    path
  }
}
