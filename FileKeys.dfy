/** Storage keys: a `year/MM/DD` directory from the current date, a `/`, and a
    file name made of a fresh UUID followed by the original file's extension.
    The date fields, the UUID text and the extension are inputs; reading the
    clock and the UUID generator is outside the model. */
module FileKeys {
  import opened JavaText

  /** The `Calendar` fields the directory is built from: `YEAR`, `MONTH`
      (counted from 0 for January) and `DAY_OF_MONTH`. */
  datatype CalendarDate = CalendarDate(year: int, month: int, dayOfMonth: int)

  /** A field of a real Gregorian calendar date. */
  predicate IsCalendarDate(date: CalendarDate)
  {
    date.year >= 0 && 0 <= date.month <= 11 && 1 <= date.dayOfMonth <= 31
  }

  /** Month or day as two characters: its decimal text left-padded with '0' to width 2. */
  function TwoDigits(n: int): string
  {
    LeftPad(IntToDecimal(n), 2, '0')
  }

  /** `createDateDir`: the year unpadded, then the calendar month plus one and the
      day, each padded to two digits, joined by `/`. */
  function CreateDateDir(date: CalendarDate): string
  {
    IntToDecimal(date.year) + "/" + TwoDigits(date.month + 1) + "/" + TwoDigits(date.dayOfMonth)
  }

  /** `createUuidFilename`: the UUID, then `.` and the extension only when the
      extension is not empty. */
  function CreateUuidFilename(uuid: string, extension: string): string
  {
    if extension != "" then uuid + "." + extension else uuid
  }

  /** `createFileKey`: the date directory, one `/`, the generated file name. */
  function CreateFileKey(date: CalendarDate, uuid: string, extension: string): string
  {
    CreateDateDir(date) + "/" + CreateUuidFilename(uuid, extension)
  }

  predicate IsLowerHex(c: char) { IsDigit(c) || 'a' <= c <= 'f' }

  /** The text of a `java.util.UUID`: 36 characters, lower-case hex digits in
      groups of 8-4-4-4-12 separated by '-'. */
  predicate IsUuidText(u: string)
  {
    |u| == 36 &&
    forall i :: 0 <= i < 36 ==>
      if i == 8 || i == 13 || i == 18 || i == 23 then u[i] == '-' else IsLowerHex(u[i])
  }

  /** `FilenameUtils.getExtension` on a file name: the text after the last '.',
      or "" when there is no '.' or a '/' or '\' comes after the last one. */
  function Extension(name: string): (ext: string)
  {
    var dot := LastIndexOf(name, '.');
    var separator := if LastIndexOf(name, '/') > LastIndexOf(name, '\\')
                     then LastIndexOf(name, '/') else LastIndexOf(name, '\\');
    if dot == -1 || separator > dot then "" else name[dot + 1..]
  }

  /** An extension holds no '.' and no path separator. */
  lemma ExtensionIsPlain(name: string)
    ensures '.' !in Extension(name) && '/' !in Extension(name) && '\\' !in Extension(name)
  {
    var ext := Extension(name);
    var dot := LastIndexOf(name, '.');
    if ext != "" {
      forall j | 0 <= j < |ext| ensures ext[j] != '.' && ext[j] != '/' && ext[j] != '\\' {
        assert ext[j] == name[dot + 1 + j];
      }
    }
  }

  /** A UUID's text holds no '.' and no path separator. */
  lemma UuidIsPlain(uuid: string)
    requires IsUuidText(uuid)
    ensures '.' !in uuid && '/' !in uuid && '\\' !in uuid
  {
    forall i | 0 <= i < |uuid| ensures uuid[i] != '.' && uuid[i] != '/' && uuid[i] != '\\' {
      assert IsLowerHex(uuid[i]) || uuid[i] == '-';
    }
  }

  /** The three directory parts hold only digits and '-'. */
  lemma DatePartsAreNumerals(date: CalendarDate)
    ensures AllNumeral(IntToDecimal(date.year))
    ensures AllNumeral(TwoDigits(date.month + 1))
    ensures AllNumeral(TwoDigits(date.dayOfMonth))
  {
    LeftPadKeepsNumeral(IntToDecimal(date.month + 1), 2);
    LeftPadKeepsNumeral(IntToDecimal(date.dayOfMonth), 2);
  }

  /** Three pieces without `c`, joined by a separator other than `c`, hold no `c`. */
  lemma JoinLacks(y: string, m: string, d: string, c: char)
    requires c != '/' && c !in y && c !in m && c !in d
    ensures c !in y + "/" + m + "/" + d
  {
  }

  /** The directory part holds no '.' and no '\\'. */
  lemma DateDirIsPlain(date: CalendarDate)
    ensures '.' !in CreateDateDir(date) && '\\' !in CreateDateDir(date)
  {
    DatePartsAreNumerals(date);
    var y, m, d := IntToDecimal(date.year), TwoDigits(date.month + 1), TwoDigits(date.dayOfMonth);
    NumeralLacks(y, '.');
    NumeralLacks(m, '.');
    NumeralLacks(d, '.');
    NumeralLacks(y, '\\');
    NumeralLacks(m, '\\');
    NumeralLacks(d, '\\');
    assert CreateDateDir(date) == y + "/" + m + "/" + d;
    JoinLacks(y, m, d, '.');
    JoinLacks(y, m, d, '\\');
  }

  /** A '.' and a non-empty extension after a name without '.' or separators:
      `getExtension` reads back exactly that extension. */
  lemma ExtensionAfterDot(base: string, extension: string)
    requires '.' !in base && '/' !in base && '\\' !in base
    requires '.' !in extension && '/' !in extension && '\\' !in extension
    requires extension != ""
    ensures Extension(base + "." + extension) == extension
  {
    var name := base + "." + extension;
    assert name == base + ("." + extension);
    LastIndexOfConcat(base, "." + extension, '.');
    LastIndexOfConcat(".", extension, '.');
    LastIndexOfConcat(base, "." + extension, '/');
    LastIndexOfConcat(base, "." + extension, '\\');
    assert name[|base| + 1..] == extension;
  }

  /** The file name ends in `.extension` exactly when there is an extension; the
      UUID and the extension are recovered from it as `getExtension` reads it. */
  lemma UuidFilenameKeepsExtension(uuid: string, extension: string)
    requires IsUuidText(uuid)
    requires '.' !in extension && '/' !in extension && '\\' !in extension
    ensures var name := CreateUuidFilename(uuid, extension);
      && ('.' in name <==> extension != "")
      && Extension(name) == extension
      && name[..36] == uuid
  {
    UuidIsPlain(uuid);
    if extension != "" {
      ExtensionAfterDot(uuid, extension);
      assert (uuid + "." + extension)[..36] == uuid;
    }
  }

  /** Four pieces without '/', joined by '/', split back into those pieces. */
  lemma SplitFourPieces(y: string, m: string, d: string, name: string)
    requires '/' !in y && '/' !in m && '/' !in d && '/' !in name
    ensures Split(y + "/" + m + "/" + d + "/" + name, '/') == [y, m, d, name]
  {
    assert y + "/" + m + "/" + d + "/" + name == y + ['/'] + (m + ['/'] + (d + ['/'] + name));
    SplitAfterPrefix(y, '/', m + ['/'] + (d + ['/'] + name));
    SplitAfterPrefix(m, '/', d + ['/'] + name);
    SplitAfterPrefix(d, '/', name);
    SplitWithoutSeparator(name, '/');
  }

  /** Three pieces without '/', joined by '/', split back into those pieces. */
  lemma SplitThreePieces(y: string, m: string, d: string)
    requires '/' !in y && '/' !in m && '/' !in d
    ensures Split(y + "/" + m + "/" + d, '/') == [y, m, d]
  {
    assert y + "/" + m + "/" + d == y + ['/'] + (m + ['/'] + d);
    SplitAfterPrefix(y, '/', m + ['/'] + d);
    SplitAfterPrefix(m, '/', d);
    SplitWithoutSeparator(d, '/');
  }

  /** Split at '/', a key is exactly the year, the month, the day and the
      generated file name. */
  lemma FileKeyParts(date: CalendarDate, uuid: string, extension: string)
    requires IsUuidText(uuid) && '/' !in extension
    ensures Split(CreateFileKey(date, uuid, extension), '/') ==
      [IntToDecimal(date.year), TwoDigits(date.month + 1), TwoDigits(date.dayOfMonth),
       CreateUuidFilename(uuid, extension)]
  {
    var y, m, d := IntToDecimal(date.year), TwoDigits(date.month + 1), TwoDigits(date.dayOfMonth);
    var name := CreateUuidFilename(uuid, extension);
    DatePartsAreNumerals(date);
    NumeralLacks(y, '/');
    NumeralLacks(m, '/');
    NumeralLacks(d, '/');
    UuidIsPlain(uuid);
    assert '/' !in name;
    assert CreateDateDir(date) == y + "/" + m + "/" + d;
    SplitFourPieces(y, m, d, name);
  }

  /** For a real calendar date the three directory parts read back as the year,
      the month counted from 1 and the day; month and day are exactly two digits
      and the year has no leading zero. */
  lemma DateDirReadsBack(date: CalendarDate)
    requires IsCalendarDate(date)
    ensures var parts := Split(CreateDateDir(date), '/');
      && |parts| == 3
      && AllDigits(parts[0]) && DecimalValue(parts[0]) == date.year
      && (parts[0][0] == '0' ==> date.year == 0)
      && |parts[1]| == 2 && AllDigits(parts[1]) && DecimalValue(parts[1]) == date.month + 1
      && |parts[2]| == 2 && AllDigits(parts[2]) && DecimalValue(parts[2]) == date.dayOfMonth
  {
    var y, m, d := IntToDecimal(date.year), TwoDigits(date.month + 1), TwoDigits(date.dayOfMonth);
    DatePartsAreNumerals(date);
    NumeralLacks(y, '/');
    NumeralLacks(m, '/');
    NumeralLacks(d, '/');
    LeftPadValue(IntToDecimal(date.month + 1), 2);
    LeftPadValue(IntToDecimal(date.dayOfMonth), 2);
    assert CreateDateDir(date) == y + "/" + m + "/" + d;
    SplitThreePieces(y, m, d);
  }

  /** Putting a directory without '.' or '\\' in front of a separator-free name
      does not change the extension `getExtension` reads. */
  lemma ExtensionBehindDirectory(dir: string, name: string)
    requires '.' !in dir && '\\' !in dir && '/' !in name && '\\' !in name
    ensures Extension(dir + name) == Extension(name)
  {
    var key := dir + name;
    LastIndexOfConcat(dir, name, '.');
    LastIndexOfConcat(dir, name, '/');
    LastIndexOfConcat(dir, name, '\\');
    if '.' in name {
      assert key[LastIndexOf(key, '.') + 1..] == name[LastIndexOf(name, '.') + 1..];
    }
  }

  /** A key keeps the extension of the original file name: read back with
      `getExtension`, it gives the same extension, and none when there was none. */
  lemma FileKeyKeepsExtension(date: CalendarDate, uuid: string, fileName: string)
    requires IsUuidText(uuid)
    ensures Extension(CreateFileKey(date, uuid, Extension(fileName))) == Extension(fileName)
  {
    var extension := Extension(fileName);
    ExtensionIsPlain(fileName);
    UuidFilenameKeepsExtension(uuid, extension);
    UuidIsPlain(uuid);
    DateDirIsPlain(date);
    var dir, name := CreateDateDir(date) + "/", CreateUuidFilename(uuid, extension);
    assert CreateFileKey(date, uuid, extension) == dir + name;
    assert '/' !in name && '\\' !in name;
    ExtensionBehindDirectory(dir, name);
  }

  /** A file saved on 7 March 2024 (calendar month 2) with extension "pdf" gets
      the key `2024/03/07/<uuid>.pdf`. */
  lemma MarchSeventhKey(uuid: string)
    ensures CreateFileKey(CalendarDate(2024, 2, 7), uuid, "pdf") == "2024/03/07/" + uuid + ".pdf"
  {
    assert NatToDecimal(2024) == "2024" by {
      assert NatToDecimal(2) == "2";
      assert NatToDecimal(20) == "20";
      assert NatToDecimal(202) == "202";
    }
    assert TwoDigits(3) == "03";
    assert TwoDigits(7) == "07";
  }
}
