/** Upload intake: which dropped or picked file is accepted for analysis. */
module Upload {
  import opened Strings

  /** The two properties of a `File` the intake looks at. */
  datatype FileInfo = FileInfo(name: string, mimeType: string)

  const AllowedTypes: seq<string> := [
    "application/pdf",
    "application/msword",
    "application/vnd.openxmlformats-officedocument.wordprocessingml.document"
  ]

  const AllowedExtensions: seq<string> := [".pdf", ".doc", ".docx"]

  /** The name names a PDF or Word file, in any letter case. */
  predicate HasDocumentExtension(name: string)
  {
    exists ext :: ext in AllowedExtensions && EndsWith(ToLower(name), ext)
  }

  /** `isValidType`: the MIME type is allowed, or the lower-cased name ends in an allowed extension. */
  predicate IsAccepted(f: FileInfo)
  {
    f.mimeType in AllowedTypes || HasDocumentExtension(f.name)
  }

  /** A name ending in `.pdf`, `.doc` or `.docx` written in any mix of upper
      and lower case is accepted whatever MIME type the browser reports. */
  lemma {:induction false} ExtensionAcceptedInAnyCase(stem: string, ext: string, mimeType: string)
    requires ToLower(ext) in AllowedExtensions
    ensures IsAccepted(FileInfo(stem + ext, mimeType))
  {
    ToLowerConcat(stem, ext);
    var lowered := ToLower(stem + ext);
    assert lowered[|lowered| - |ext|..] == ToLower(ext);
    assert EndsWith(lowered, ToLower(ext));
  }

  /** A file whose reported type is allowed is accepted whatever its name is. */
  lemma AllowedTypeAccepted(name: string, mimeType: string)
    requires mimeType in AllowedTypes
    ensures IsAccepted(FileInfo(name, mimeType))
  {
  }

  /** The decision does not depend on the letter case of the name. */
  lemma AcceptanceIgnoresCase(f: FileInfo)
    ensures IsAccepted(f) == IsAccepted(f.(name := ToLower(f.name)))
  {
    ToLowerIdempotent(f.name);
  }

  /** Every allowed extension ends in `f`, `c` or `x`: a name whose last
      character lower-cases to anything else, with a type outside the list,
      is rejected. */
  lemma RejectedByLastCharacter(f: FileInfo)
    requires f.mimeType !in AllowedTypes
    requires f.name == [] || LowerChar(f.name[|f.name| - 1]) !in {'f', 'c', 'x'}
    ensures !IsAccepted(f)
  {
  }

  /** The type must match an allowed string exactly, and a name with the
      extension in the middle does not count. */
  lemma RejectedExamples()
    ensures !IsAccepted(FileInfo("agreement.txt", "text/plain"))
    ensures !IsAccepted(FileInfo("agreement.pdf.txt", "APPLICATION/PDF"))
  {
    RejectedByLastCharacter(FileInfo("agreement.txt", "text/plain"));
    RejectedByLastCharacter(FileInfo("agreement.pdf.txt", "APPLICATION/PDF"));
  }

  /** An upper-case `.DOCX` name is accepted even when the browser reports
      no MIME type, whatever comes before the extension. */
  lemma AcceptedExample(stem: string)
    ensures IsAccepted(FileInfo(stem + ".DOCX", ""))
  {
    var ext := ".DOCX";
    var lowered := ToLower(ext);
    assert lowered == ".docx" by {
      assert |lowered| == 5;
      assert lowered[0] == LowerChar(ext[0]) && lowered[1] == LowerChar(ext[1]);
      assert lowered[2] == LowerChar(ext[2]) && lowered[3] == LowerChar(ext[3]);
      assert lowered[4] == LowerChar(ext[4]);
    }
    ExtensionAcceptedInAnyCase(stem, ext, "");
  }
}
