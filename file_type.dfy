/** The client-side file-type check run when a file is chosen for upload. */
module FileType {
  import opened Text

  /** The accepted extensions, dot included. */
  const AllowedExtensions: seq<string> := [".pdf", ".docx", ".txt"]

  /** `name.substring(name.lastIndexOf('.')).toLowerCase()`: from the last dot
      on, lower-cased; a name without a dot is taken whole. The result is a
      lower-cased suffix of the name, starts with a dot exactly when the name
      has one, and has no further dot. */
  function Extension(name: string): (ext: string)
    ensures |ext| <= |name| && ext == ToLower(name[|name| - |ext|..])
    ensures (|ext| > 0 && ext[0] == '.') <==> '.' in name
    ensures forall k :: 1 <= k < |ext| ==> ext[k] != '.'
    ensures '.' !in name ==> ext == ToLower(name)
  {
    var i := LastIndexOf(name, '.');
    var tail := SubstringFrom(name, i);
    LowerKeepsDots(tail);
    if i == -1 then
      assert tail == name;
      ToLower(tail)
    else
      assert tail == name[i..];
      ToLower(tail)
  }

  /** The validator: a file is kept only if its extension is listed. An
      accepted name has a dot and at least four characters. */
  function IsAllowedFile(name: string): (accepted: bool)
    ensures accepted ==> '.' in name && |name| >= 4
  {
    Extension(name) in AllowedExtensions
  }

  /** `name` ends with `ext` when compared case-insensitively (ASCII). */
  predicate EndsWithIgnoringCase(name: string, ext: string) {
    |ext| <= |name| && ToLower(name[|name| - |ext|..]) == ext
  }

  lemma LowerCharIsDot(c: char)
    ensures LowerChar(c) == '.' <==> c == '.'
  {
  }

  /** Lower-casing neither creates nor removes dots. */
  lemma LowerKeepsDots(s: string)
    ensures forall k :: 0 <= k < |s| ==> (ToLower(s)[k] == '.' <==> s[k] == '.')
  {
    forall k | 0 <= k < |s| ensures ToLower(s)[k] == '.' <==> s[k] == '.' {
      LowerCharIsDot(s[k]);
    }
  }

  /** `ext` is a dot followed by dot-free text, as every accepted extension is. */
  predicate DotThenNoDot(ext: string) {
    |ext| >= 1 && ext[0] == '.' && forall k :: 1 <= k < |ext| ==> ext[k] != '.'
  }

  lemma AllowedAreDotThenNoDot(ext: string)
    requires ext in AllowedExtensions
    ensures DotThenNoDot(ext)
  {
  }

  /** If `name` ends (ignoring case) with a dot and dot-free text, its last
      dot is the first character of that suffix. */
  lemma LastDotStartsSuffix(name: string, ext: string)
    requires DotThenNoDot(ext)
    requires EndsWithIgnoringCase(name, ext)
    ensures LastIndexOf(name, '.') == |name| - |ext|
  {
    var j := |name| - |ext|;
    var tail := name[j..];
    var lowered := ToLower(tail);
    assert lowered[0] == '.';
    LowerCharIsDot(tail[0]);
    assert name[j] == '.';
    forall p | j < p < |name| ensures name[p] != '.' {
      assert lowered[p - j] != '.';
      LowerCharIsDot(tail[p - j]);
    }
  }

  /** A name ending (ignoring case) with a dot and dot-free text has that
      suffix, lower-cased, as its extension. */
  lemma ExtensionOfSuffix(name: string, ext: string)
    requires DotThenNoDot(ext)
    requires EndsWithIgnoringCase(name, ext)
    ensures Extension(name) == ext
  {
    LastDotStartsSuffix(name, ext);
    assert SubstringFrom(name, |name| - |ext|) == name[|name| - |ext|..];
  }

  /** An accepted name ends with its (listed) extension, ignoring case. */
  lemma AcceptedEndsWithExtension(name: string)
    requires IsAllowedFile(name)
    ensures EndsWithIgnoringCase(name, ".pdf") ||
      EndsWithIgnoringCase(name, ".docx") ||
      EndsWithIgnoringCase(name, ".txt")
  {
    var ext := Extension(name);
    assert |ext| <= |name| && ToLower(name[|name| - |ext|..]) == ext;
    if ext == ".pdf" {
      assert EndsWithIgnoringCase(name, ".pdf");
    } else if ext == ".docx" {
      assert EndsWithIgnoringCase(name, ".docx");
    } else {
      assert ext == ".txt";
      assert EndsWithIgnoringCase(name, ".txt");
    }
  }

  /** A name ending with a listed extension, ignoring case, is accepted. */
  lemma EndsWithExtensionAccepted(name: string, ext: string)
    requires ext in AllowedExtensions
    requires EndsWithIgnoringCase(name, ext)
    ensures IsAllowedFile(name)
  {
    AllowedAreDotThenNoDot(ext);
    ExtensionOfSuffix(name, ext);
  }

  /** The check accepts a file exactly when its name ends, ignoring case, with
      ".pdf", ".docx" or ".txt". In particular a name without a dot (say
      "pdf") is rejected although it is compared whole. */
  lemma AllowedIffEndsWithExtension(name: string)
    ensures IsAllowedFile(name) <==>
      EndsWithIgnoringCase(name, ".pdf") ||
      EndsWithIgnoringCase(name, ".docx") ||
      EndsWithIgnoringCase(name, ".txt")
  {
    if IsAllowedFile(name) {
      AcceptedEndsWithExtension(name);
    } else if EndsWithIgnoringCase(name, ".pdf") {
      EndsWithExtensionAccepted(name, ".pdf");
    } else if EndsWithIgnoringCase(name, ".docx") {
      EndsWithExtensionAccepted(name, ".docx");
    } else if EndsWithIgnoringCase(name, ".txt") {
      EndsWithExtensionAccepted(name, ".txt");
    }
  }

  /** A mixed-case accepted extension, behind another dot. */
  lemma AcceptsUpperCaseExtension()
    ensures IsAllowedFile("report.v2.PDF")
  {
    var name := "report.v2.PDF";
    var tail := name[9..];
    assert tail == ".PDF";
    assert ToLower(tail) == ".pdf" by {
      assert ToLower(tail)[1] == LowerChar('P') == 'p';
      assert ToLower(tail)[2] == LowerChar('D') == 'd';
      assert ToLower(tail)[3] == LowerChar('F') == 'f';
    }
    AllowedIffEndsWithExtension(name);
  }

  /** An extension outside the list is rejected. */
  lemma RejectsOtherExtension()
    ensures !IsAllowedFile("notes.md")
  {
    var name := "notes.md";
    AllowedIffEndsWithExtension(name);
    assert ToLower(name[4..])[0] == 's';
    assert ToLower(name[3..])[0] == 'e';
    assert ToLower(name[4..]) != ".pdf" && ToLower(name[4..]) != ".txt";
    assert ToLower(name[3..]) != ".docx";
  }

  /** A bare "pdf" has no dot and is compared whole, so it is rejected. */
  lemma RejectsNameWithoutDot()
    ensures !IsAllowedFile("pdf")
  {
    AllowedIffEndsWithExtension("pdf");
  }
}
