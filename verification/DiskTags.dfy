/**
  * The guest's side of disks.cfg: how init reads the file that links each tag to
  * a device, and that the device is the one that the builder made of the disk.
  */
module DiskTags {
  import opened Options
  import opened Text
  import opened ConfigTypes
  import opened DeviceNames
  import opened GuestMounts

  /** A link below /dev/disk/by-tag. */
  datatype Link = Link(tag: string, device: string)

  /** The two fields of a line, cut at the first tab and the newline; without them init does not survive. */
  function ParseDiskLine(line: string): Option<Link> {
    var t := After(line, 0, '\t');
    if t > |line| then None
    else
      var l := After(line, t, '\n');
      if l > |line| then None else Some(Link(line[..t - 1], line[t..l - 1]))
  }

  function ReadLinks(text: string): Option<seq<Link>>
    decreases |text|
  {
    if text == "" then Some([])
    else
      var line := NextLine(text);
      var link := ParseDiskLine(line);
      var rest := ReadLinks(text[|line|..]);
      if link.None? || rest.None? then None else Some([link.value] + rest.value)
  }

  // The loop.

  lemma CutLink(b: seq<char>, line: string, n: seq<char>, t: nat, l: nat)
    requires |line| < |b| && b[..|line|] == line && HasNo(line, '\0') && 0 < t < l <= |line|
    requires n == b[t - 1 := '\0'][l - 1 := '\0']
    ensures Link(CString(n, 0), CString(n, t)) == Link(line[..t - 1], line[t..l - 1])
  {
    hide CString, HasNo, Find;
    CutString(b, line, n, 0, t - 1);
    CutString(b, line, n, t, l - 1);
    assert line[0..t - 1] == line[..t - 1];
  }

  /** One turn: read a line and cut it in place, if it can be cut. */
  method ReadLink(buffer: array<char>, text: string) returns (link: Option<Link>, rest: string)
    requires buffer.Length == LINE_MAX + 1 && text != "" && HasNo(text, '\0')
    modifies buffer
    ensures link == ParseDiskLine(NextLine(text)) && rest == text[|NextLine(text)|..] && HasNo(rest, '\0')
  {
    var line;
    line, rest := Fgets(buffer, text);
    if ParseDiskLine(line).None? {
      return None, rest;
    }
    ghost var b := buffer[..];
    assert b[..|line|] == line && buffer[0..|line|] == line[0..];
    hide After, CString;
    var device := Cut(buffer, 0, '\t', line);
    var end := Cut(buffer, device, '\n', line);
    CutLink(b, line, buffer[..], device, end);
    link := Some(Link(CString(buffer[..], 0), CString(buffer[..], device)));
  }

  function PrependLinks(done: seq<Link>, rest: Option<seq<Link>>): Option<seq<Link>> {
    if rest.None? then None else Some(done + rest.value)
  }

  lemma LinksPrepended(done: seq<Link>, more: seq<Link>, rest: Option<seq<Link>>)
    ensures PrependLinks(done, PrependLinks(more, rest)) == PrependLinks(done + more, rest)
    ensures PrependLinks([], rest) == rest && done + [] == done
  {
    if rest.Some? {
      assert done + (more + rest.value) == done + more + rest.value;
      assert [] + rest.value == rest.value;
    }
  }

  /** setup_disk_tags, up to the links: what it links to what, in order. */
  method SetupDiskTags(buffer: array<char>, text: string) returns (r: Option<seq<Link>>)
    requires buffer.Length == LINE_MAX + 1 && HasNo(text, '\0')
    modifies buffer
    ensures r == ReadLinks(text)
  {
    hide ParseDiskLine, NextLine;
    var rest, done := text, [];
    LinksPrepended([], [], ReadLinks(text));
    while rest != ""
      invariant HasNo(rest, '\0')
      invariant ReadLinks(text) == PrependLinks(done, ReadLinks(rest))
      decreases |rest|
    {
      var link;
      link, rest := ReadLink(buffer, rest);
      if link.None? {
        return None;
      }
      LinksPrepended(done, [link.value], ReadLinks(rest));
      done := done + [link.value];
    }
    LinksPrepended(done, [], Some([]));
    return Some(done);
  }

  // What is written is what is read.

  /** Neither field can be taken for a separator, and the line fits init's buffer. */
  predicate CleanLink(tag: string, device: string) {
    HasNo(tag, '\t') && HasNo(tag, '\n') && HasNo(device, '\n') && |DiskLine(tag, device)| <= LINE_MAX
  }

  lemma DiskLineBack(tag: string, device: string)
    requires HasNo(tag, '\t') && HasNo(device, '\n')
    ensures ParseDiskLine(DiskLine(tag, device)) == Some(Link(tag, device))
  {
    var line := DiskLine(tag, device);
    var t := |tag| + 1;
    assert line[0..] == tag + "\t" + (device + "\n");
    assert line[t..] == device + "\n" + "";
    hide After, HasNo;
    AfterIs(line, 0, tag, '\t', device + "\n");
    AfterIs(line, t, device, '\n', "");
    assert line[0..|tag|] == line[..t - 1];
  }

  lemma DiskLineNext(tag: string, device: string, rest: string)
    requires CleanLink(tag, device)
    ensures NextLine(DiskLine(tag, device) + rest) == DiskLine(tag, device)
  {
    var body := tag + "\t" + device;
    assert HasNo(body, '\n');
    assert DiskLine(tag, device) == body + "\n";
    assert DiskLine(tag, device) + rest == body + "\n" + rest;
    FindIs(body, '\n', rest);
  }

  lemma LinkBack(tag: string, device: string, rest: string)
    requires CleanLink(tag, device)
    ensures ReadLinks(DiskLine(tag, device) + rest) == PrependLinks([Link(tag, device)], ReadLinks(rest))
  {
    DiskLineNext(tag, device, rest);
    DiskLineBack(tag, device);
    assert DiskLine(tag, device) != "";
    hide DiskLine, ParseDiskLine, NextLine, CleanLink;
    var text := DiskLine(tag, device) + rest;
    assert text[|DiskLine(tag, device)|..] == rest;
  }

  /** A line by itself is read back as it was written if and only if it is clean. */
  lemma DiskLineSurvives(tag: string, device: string)
    ensures ReadLinks(DiskLine(tag, device)) == Some([Link(tag, device)]) <==> CleanLink(tag, device)
  {
    var text := DiskLine(tag, device);
    if CleanLink(tag, device) {
      LinkBack(tag, device, "");
      assert text + "" == text && [Link(tag, device)] + [] == [Link(tag, device)];
    } else if ReadLinks(text) == Some([Link(tag, device)]) {
      ReadIsLine(tag, device);
    }
  }

  /** What is read of a line is no longer than the line. */
  lemma ReadIsLine(tag: string, device: string)
    requires ReadLinks(DiskLine(tag, device)) == Some([Link(tag, device)])
    ensures CleanLink(tag, device)
  {
    var text := DiskLine(tag, device);
    assert text != "";
    var line := NextLine(text);
    var rest := ReadLinks(text[|line|..]).value;
    assert ([ParseDiskLine(line).value] + rest)[0] == ParseDiskLine(line).value;
    assert ParseDiskLine(line) == Some(Link(tag, device));
    ParsedFits(line, Link(tag, device));
    assert |line| == |text| && line == text;
    OnlyAtEnd(text);
    var front := text[..|text| - 1];
    forall k | 0 <= k < |tag| ensures tag[k] != '\n' {
      assert front[k] == tag[k];
    }
  }

  lemma ParsedFits(line: string, link: Link)
    requires ParseDiskLine(line) == Some(link)
    ensures |link.tag| + |link.device| + 2 <= |line|
    ensures HasNo(link.tag, '\t') && HasNo(link.device, '\n')
  {
    var t := After(line, 0, '\t');
    FieldHasNo(line, 0, '\t');
    FieldHasNo(line, t, '\n');
    assert line[0..t - 1] == line[..t - 1];
  }

  // From the builder to the guest.

  /** The links that are meant. */
  function Links(c: Config, n: nat): (links: seq<Link>)
    requires n <= |c.disks|
    ensures |links| == n
  {
    if n == 0 then [] else Links(c, n - 1) + [Link(c.disks[n - 1].tag, "/dev/" + VirtioName(n - 1))]
  }

  lemma {:induction false} LinksAt(c: Config, n: nat, k: nat)
    requires k < n <= |c.disks|
    ensures Links(c, n)[k] == Link(c.disks[k].tag, "/dev/" + VirtioName(k))
  {
    hide VirtioName;
    if k < n - 1 {
      LinksAt(c, n - 1, k);
    }
  }

  lemma {:induction false} DiskCfgBack(c: Config, n: nat, rest: string)
    requires n <= |c.disks|
    requires forall k | 0 <= k < n :: CleanLink(c.disks[k].tag, "/dev/" + VirtioName(k))
    ensures ReadLinks(DiskCfg(c, n) + rest) == PrependLinks(Links(c, n), ReadLinks(rest))
  {
    hide CleanLink, DiskLine, ReadLinks, VirtioName;
    if n > 0 {
      var tag, device := c.disks[n - 1].tag, "/dev/" + VirtioName(n - 1);
      LinkBack(tag, device, rest);
      DiskCfgBack(c, n - 1, DiskLine(tag, device) + rest);
      assert DiskCfg(c, n) + rest == DiskCfg(c, n - 1) + (DiskLine(tag, device) + rest);
      LinksPrepended(Links(c, n - 1), [Link(tag, device)], ReadLinks(rest));
    } else {
      assert "" + rest == rest;
      LinksPrepended([], [], ReadLinks(rest));
    }
  }

  /** No separator, and room for the line. */
  predicate CleanTag(tag: string) {
    HasNo(tag, '\t') && HasNo(tag, '\n') && |tag| + 10 <= LINE_MAX
  }

  /** The letters of the first 159 names are neither zero nor a separator; the next one is zero. */
  lemma NamesAreStrings(k: nat)
    ensures k < 159 ==> HasNo(VirtioName(k), '\0') && HasNo(VirtioName(k), '\n')
    ensures k == 159 ==> !HasNo(VirtioName(k), '\0')
  {
    if k == 159 {
      assert VirtioName(k)[2] == '\0';
    }
  }

  /** Only one device has this name. */
  ghost predicate Only(ds: seq<Device>, name: string) {
    forall a, b | 0 <= a < |ds| && 0 <= b < |ds| && NameOf(ds[a]) == name == NameOf(ds[b]) :: a == b
  }

  /**
    * From the builder to the guest: init finds one line for each disk, with its
    * tag and the name of the device that the builder made of that disk; and this
    * is the only device of that name if there are at most 256 disks and images.
    */
  lemma DiskTagsAgree(c: Config, configdir: string)
    requires |c.disks| <= 159 && (forall k | 0 <= k < |c.disks| :: CleanTag(c.disks[k].tag))
    ensures var links, ds := ReadLinks(DiskCfg(c, |c.disks|)), Devices(c, configdir);
            && links.Some? && |links.value| == |c.disks|
            && (forall k | 0 <= k < |c.disks| ::
                  && links.value[k].tag == c.disks[k].tag
                  && HasDisk(ds, links.value[k].device, c.disks[k].source, c.disks[k].format)
                  && (VirtioDevices(c) <= 256 ==> Only(ds, links.value[k].device)))
  {
    var n := |c.disks|;
    forall k | 0 <= k < n ensures CleanLink(c.disks[k].tag, "/dev/" + VirtioName(k)) {
      NamesAreStrings(k);
      assert |DiskLine(c.disks[k].tag, "/dev/" + VirtioName(k))| == |c.disks[k].tag| + 10;
    }
    hide CleanLink, CleanTag, VirtioName, NameOf;
    DiskCfgBack(c, n, "");
    assert DiskCfg(c, n) + "" == DiskCfg(c, n) && Links(c, n) + [] == Links(c, n);
    assert ReadLinks("") == Some([]);
    hide ReadLinks, Devices, HasDisk;
    LinesNameDevices(c, configdir);
    if VirtioDevices(c) <= 256 {
      NamesDistinct(c, configdir);
    }
    forall k | 0 <= k < n
      ensures var link := Links(c, n)[k];
              link.tag == c.disks[k].tag && link.device == "/dev/" + VirtioName(k)
    {
      LinksAt(c, n, k);
    }
  }
}
