/** The client's check on a file the user picks before it is parsed. */
module FileValidation {
  import opened Values
  import opened Text

  /** The largest accepted file, in bytes (10 MB). */
  const MaxFileSize: nat := 10 * 1024 * 1024

  const NotCsvMessage := "Please select a valid CSV file"
  const TooLargeMessage := "File size must be less than 10MB"

  /** The parts of a browser `File` the check reads: its name, its MIME
      type and its size in bytes. */
  datatype File = File(name: string, mimeType: string, size: nat)

  /** The file looks like a CSV file: by its extension, in any letter case,
      or by its MIME type. */
  predicate LooksLikeCsv(f: File)
  {
    EndsWith(ToLower(f.name), ".csv") || f.mimeType == "text/csv"
  }

  /** validateFile: None when the file is accepted, otherwise the message
      for the first check it fails. */
  function ValidateFile(f: File): (r: Option<string>)
    ensures r == None <==> LooksLikeCsv(f) && f.size <= MaxFileSize
    ensures r == Some(NotCsvMessage) <==> !LooksLikeCsv(f)
    ensures r == Some(TooLargeMessage) <==> LooksLikeCsv(f) && f.size > MaxFileSize
  {
    if !EndsWith(ToLower(f.name), ".csv") && f.mimeType != "text/csv" then Some(NotCsvMessage)
    else if f.size > MaxFileSize then Some(TooLargeMessage)
    else None
  }

  /** Lowering a concatenation lowers each part. */
  lemma {:induction false} ToLowerAppend(a: string, b: string)
    ensures ToLower(a + b) == ToLower(a) + ToLower(b)
  {
    if a == [] {
      assert a + b == b;
    } else {
      assert (a + b)[0] == a[0];
      assert (a + b)[1..] == a[1..] + b;
      ToLowerAppend(a[1..], b);
    }
  }

  /** A name ending in ".csv" in any mix of letter case passes the type
      check, whatever the MIME type the browser reports. */
  lemma AnyCaseExtension(stem: string, ext: string, mimeType: string, size: nat)
    requires |ext| == 4 && ext[0] == '.' && (ext[1] == 'c' || ext[1] == 'C')
             && (ext[2] == 's' || ext[2] == 'S') && (ext[3] == 'v' || ext[3] == 'V')
    ensures LooksLikeCsv(File(stem + ext, mimeType, size))
    ensures ValidateFile(File(stem + ext, mimeType, size)) != Some(NotCsvMessage)
  {
    ToLowerAppend(stem, ext);
    var lowered := ToLower(stem + ext);
    assert ToLower(ext) == ".csv";
    assert lowered[|lowered| - 4..] == ToLower(ext);
  }

  /** The MIME type alone admits a file, whatever its name. */
  lemma MimeTypeSuffices(name: string, size: nat)
    ensures LooksLikeCsv(File(name, "text/csv", size))
  {
  }

  /** The size limit is inclusive: a CSV file of exactly 10 MB is accepted,
      one byte more is refused with the size message. */
  lemma SizeBoundary(name: string, mimeType: string)
    requires LooksLikeCsv(File(name, mimeType, 0))
    ensures ValidateFile(File(name, mimeType, MaxFileSize)) == None
    ensures ValidateFile(File(name, mimeType, MaxFileSize + 1)) == Some(TooLargeMessage)
  {
    assert LooksLikeCsv(File(name, mimeType, MaxFileSize)) && LooksLikeCsv(File(name, mimeType, MaxFileSize + 1));
  }

  /** A file that is neither named nor typed as CSV is refused for its type
      even when it is also too large: the type check comes first. */
  lemma TypeCheckFirst(f: File)
    requires !LooksLikeCsv(f) && f.size > MaxFileSize
    ensures ValidateFile(f) == Some(NotCsvMessage)
  {
  }
}
