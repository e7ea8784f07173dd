/**
 * The filesystem support probe: is a filesystem type listed in the kernel's
 * list of supported filesystems (the text of /proc/filesystems)?
 */
module FsProbe {
  import opened Base
  import opened Text

  /** The tokens of one line: tabs become spaces, the line is stripped and split at single spaces. */
  function Tokens(line: string): seq<string> {
    GSplit(Strip(TabsToSpaces(line)), ' ')
  }

  /** A line names `fstype` when it consists of exactly one token, equal to `fstype`. */
  predicate LineMatches(line: string, fstype: string) {
    var tokens := Tokens(line);
    |tokens| == 1 && tokens[0] == fstype
  }

  /** The lines of the file's text, as g_strsplit at '\n' gives them. */
  function Lines(contents: string): seq<string> {
    GSplit(contents, '\n')
  }

  /**
   * The filesystem type is supported: the file could be read, the device
   * carries a type, and some line names exactly that type.
   */
  predicate Supported(contents: Option<string>, fstype: Option<string>) {
    && contents.Some?
    && fstype.Some?
    && exists i :: 0 <= i < |Lines(contents.value)| && LineMatches(Lines(contents.value)[i], fstype.value)
  }

  /**
   * is_in_filesystem_file: `contents` is the text of the file, or None when it
   * could not be read; `fstype` is None when the device carries no ID_FS_TYPE.
   * The loop stops at the first matching line.
   */
  method IsInFilesystemFile(contents: Option<string>, fstype: Option<string>) returns (ret: bool)
    ensures ret <==> Supported(contents, fstype)
  {
    ret := false;
    if contents.None? {
      return;
    }
    var lines := GSplit(contents.value, '\n');
    var n := 0;
    while n < |lines| && !ret
      invariant 0 <= n <= |lines|
      invariant !ret ==> forall i :: 0 <= i < n ==> fstype.None? || !LineMatches(lines[i], fstype.value)
      invariant ret ==> 0 < n && fstype.Some? && LineMatches(lines[n - 1], fstype.value)
    {
      var tokens := Tokens(lines[n]);
      if |tokens| == 1 && fstype.Some? && tokens[0] == fstype.value {
        ret := true;
      }
      n := n + 1;
    }
    assert lines == Lines(contents.value);
  }

  /**
   * A line names `fstype` exactly when the stripped line (tabs turned into
   * spaces) equals `fstype`, and `fstype` is a non-empty word without spaces.
   */
  lemma LineMatchesIff(line: string, fstype: string)
    ensures LineMatches(line, fstype)
        <==> fstype != "" && ' ' !in fstype && Strip(TabsToSpaces(line)) == fstype
  {
    var s := Strip(TabsToSpaces(line));
    if s != "" {
      SplitOnSingle(s, ' ');
    }
  }

  /** A line whose stripped text still holds a blank between two words names no type at all. */
  lemma TwoWordLineNeverMatches(line: string, fstype: string)
    requires ' ' in Strip(TabsToSpaces(line))
    ensures !LineMatches(line, fstype)
  {
    LineMatchesIff(line, fstype);
  }

  /** A pseudo filesystem entry of /proc/filesystems ("nodev\tsysfs") never matches its name. */
  lemma NodevEntryNeverMatches()
    ensures !LineMatches("nodev\tsysfs", "sysfs")
  {
    var line := "nodev\tsysfs";
    var spaced := TabsToSpaces(line);
    assert spaced[5] == ' ';
    assert TrimStart(spaced) == spaced;
    assert TrimEnd(spaced) == spaced;
    assert ' ' in Strip(spaced);
    TwoWordLineNeverMatches(line, "sysfs");
  }

  /** A block filesystem entry of /proc/filesystems ("\text4") matches its own name and no other. */
  lemma BlockEntryMatches(fstype: string)
    ensures LineMatches("\text4", fstype) <==> fstype == "ext4"
  {
    BlockEntryStripped();
    assert ' ' !in "ext4";
    LineMatchesIff("\text4", fstype);
  }

  lemma BlockEntryStripped()
    ensures Strip(TabsToSpaces("\text4")) == "ext4"
  {
    TabbedExt4();
    StrippedExt4();
  }

  lemma TabbedExt4()
    ensures TabsToSpaces("\text4") == " ext4"
  {
    var spaced := TabsToSpaces("\text4");
    assert |spaced| == 5 && spaced[0] == ' ';
    assert spaced[1..] == "ext4";
  }

  lemma StrippedExt4()
    ensures Strip(" ext4") == "ext4"
  {
    assert TrimStart(" ext4") == TrimStart("ext4") == "ext4";
    assert TrimEnd("ext4") == "ext4";
  }
}
