/** File classification: the icon shown for a file type, the accepted file types,
    and whether a file is read as text or as a data URL. */
module FileUtils {
  import opened Js

  const PageIcon: string := "\U{1F4C4}"
  const MemoIcon: string := "\U{1F4DD}"
  const BarChartIcon: string := "\U{1F4CA}"
  const RisingChartIcon: string := "\U{1F4C8}"
  const ClipboardIcon: string := "\U{1F4CB}"
  const BoltIcon: string := "\U{26A1}"
  const BlueDiamondIcon: string := "\U{1F537}"
  const SnakeIcon: string := "\U{1F40D}"
  const CoffeeIcon: string := "\U{2615}"
  const GearIcon: string := "\U{2699}\U{FE0F}"
  const GemIcon: string := "\U{1F48E}"
  const ElephantIcon: string := "\U{1F418}"
  const SmallDiamondIcon: string := "\U{1F539}"
  const CrabIcon: string := "\U{1F980}"
  const AppleIcon: string := "\U{1F34E}"
  const TargetIcon: string := "\U{1F3AF}"
  const PaletteIcon: string := "\U{1F3A8}"
  const CardBoxIcon: string := "\U{1F5C3}\U{FE0F}"
  const ShellIcon: string := "\U{1F41A}"
  const WrenchIcon: string := "\U{1F527}"
  const GlobeIcon: string := "\U{1F310}"

  /** The icon table; `default` is one of its keys. */
  const IconMap: map<string, string> :=
    map["pdf" := PageIcon, "doc" := MemoIcon, "docx" := MemoIcon, "xls" := BarChartIcon,
        "xlsx" := BarChartIcon, "ppt" := RisingChartIcon, "pptx" := RisingChartIcon,
        "txt" := PageIcon, "csv" := BarChartIcon, "json" := ClipboardIcon, "js" := BoltIcon,
        "jsx" := BoltIcon, "ts" := BlueDiamondIcon, "tsx" := BlueDiamondIcon, "py" := SnakeIcon,
        "java" := CoffeeIcon, "cpp" := GearIcon, "c" := GearIcon, "h" := GearIcon, "cs" := GemIcon,
        "php" := ElephantIcon, "rb" := GemIcon, "go" := SmallDiamondIcon, "rs" := CrabIcon,
        "swift" := AppleIcon, "kt" := TargetIcon, "scala" := PaletteIcon, "sql" := CardBoxIcon,
        "sh" := ShellIcon, "bash" := ShellIcon, "yml" := MemoIcon, "yaml" := MemoIcon,
        "toml" := MemoIcon, "ini" := MemoIcon, "env" := WrenchIcon, "md" := MemoIcon,
        "html" := GlobeIcon, "css" := PaletteIcon, "xml" := PageIcon, "svg" := PaletteIcon,
        "default" := PageIcon]

  const DefaultIcon: string := PageIcon

  /** `iconMap[fileType] || iconMap.default`: the table's icon for a listed key, the
      default icon for every other string. */
  function GetFileIcon(fileType: string): (r: string)
    ensures fileType in IconMap ==> r == IconMap[fileType]
    ensures fileType !in IconMap ==> r == DefaultIcon
    ensures r != ""
  {
    if fileType in IconMap && IconMap[fileType] != "" then IconMap[fileType] else IconMap["default"]
  }

  /** The accepted types: any image, and a list of extensions. */
  const SupportedFileTypes: seq<string> :=
    ["image/*", ".pdf", ".doc", ".docx", ".xls", ".xlsx", ".ppt", ".pptx", ".txt", ".csv", ".json",
     ".js", ".jsx", ".ts", ".tsx", ".py", ".java", ".cpp", ".c", ".h", ".cs", ".php", ".rb", ".go",
     ".rs", ".swift", ".kt", ".scala", ".sql", ".sh", ".bash", ".yml", ".yaml", ".toml", ".ini",
     ".env", ".md", ".html", ".css", ".xml", ".svg"]

  /** The extensions whose files are read as text. */
  const TextFileExtensions: seq<string> :=
    [".txt", ".md", ".json", ".js", ".jsx", ".ts", ".tsx", ".py", ".java", ".cpp", ".c", ".h",
     ".cs", ".php", ".rb", ".go", ".rs", ".swift", ".kt", ".scala", ".sql", ".sh", ".bash", ".yml",
     ".yaml", ".toml", ".ini", ".env", ".html", ".css", ".xml", ".svg"]

  /** `exts.some(ext => name.endsWith(ext))`. */
  predicate SomeEndsWith(name: string, exts: seq<string>)
    decreases |exts|
  {
    |exts| > 0 && (EndsWith(name, exts[0]) || SomeEndsWith(name, exts[1..]))
  }

  /** The read mode of `readFileContent`: text for a `text/` MIME type or a name
      that, lower-cased, ends with one of the text extensions; a data URL otherwise. */
  function ReadsAsText(mimeType: string, name: string): (b: bool)
    ensures b <==>
      (StartsWith(mimeType, "text/")
       || exists i :: 0 <= i < |TextFileExtensions| && EndsWith(ToLower(name), TextFileExtensions[i]))
  {
    SomeEndsWithIff(ToLower(name), TextFileExtensions);
    StartsWith(mimeType, "text/") || SomeEndsWith(ToLower(name), TextFileExtensions)
  }

  /** The recursive test is `some`: one of the extensions is a suffix. */
  lemma {:induction false} SomeEndsWithIff(name: string, exts: seq<string>)
    ensures SomeEndsWith(name, exts) <==> exists i :: 0 <= i < |exts| && EndsWith(name, exts[i])
    decreases |exts|
  {
    if |exts| > 0 {
      SomeEndsWithIff(name, exts[1..]);
      if (exists i :: 0 <= i < |exts| && EndsWith(name, exts[i])) {
        var i :| 0 <= i < |exts| && EndsWith(name, exts[i]);
        if i > 0 {
          assert exts[1..][i - 1] == exts[i];
        }
      }
      if (exists i :: 0 <= i < |exts[1..]| && EndsWith(name, exts[1..][i])) {
        var i :| 0 <= i < |exts[1..]| && EndsWith(name, exts[1..][i]);
        assert exts[i + 1] == exts[1..][i];
      }
    }
  }

  /** The read mode does not depend on the case of the file name. */
  lemma ReadModeIgnoresCase(mimeType: string, name: string)
    ensures ReadsAsText(mimeType, name) == ReadsAsText(mimeType, ToLower(name))
  {
    ToLowerIdempotent(name);
  }

  /** Files read as text are among the accepted ones: each text extension is also
      listed as a supported type. */
  lemma TextExtensionsAreSupported()
    ensures forall i :: 0 <= i < |TextFileExtensions| ==> TextFileExtensions[i] in SupportedFileTypes
  {
  }

  /** Every supported extension (every entry after the one for images) has its own icon. */
  lemma SupportedExtensionsHaveIcons()
    ensures SupportedFileTypes[0] == "image/*"
    ensures forall i :: 1 <= i < |SupportedFileTypes| ==>
      (|SupportedFileTypes[i]| > 1 && SupportedFileTypes[i][0] == '.'
       && SupportedFileTypes[i][1..] in IconMap)
  {
  }

  /** The attachment list asks for the icon of an attachment's kind, `image` or
      `file`, which the table does not list: every attachment gets the default icon. */
  lemma ImageKindGetsDefaultIcon()
    ensures GetFileIcon("image") == DefaultIcon
  {
    assert "image" !in IconMap.Keys;
  }

  lemma FileKindGetsDefaultIcon()
    ensures GetFileIcon("file") == DefaultIcon
  {
    assert forall k :: k in IconMap.Keys ==> |k| > 0 && k[0] != 'f';
    assert "file"[0] == 'f';
  }

  /** An upper-case source-file name is read as text. */
  lemma UpperCaseSourceReadsAsText()
    ensures ReadsAsText("", "MAIN.PY")
  {
    assert ToLower("MAIN.PY") == "main.py";
    assert EndsWith("main.py", TextFileExtensions[7]);
    SomeEndsWithIff("main.py", TextFileExtensions);
  }
}
