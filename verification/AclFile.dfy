/** The broker's ACL file: how it is printed, how the broker reads it, and that the two
    together grant exactly the intended access. */
module AclFile {
  import opened Wrappers
  import opened TopicFilter

  // -- how the broker reads a file ---------------------------------------------------

  datatype Access = Read | Write

  datatype Line = UserLine(name: string) | TopicLine(read: bool, write: bool, filter: string) | Ignored

  function ParseLine(line: string): Line {
    if "user " <= line then UserLine(line[5..])
    else if "topic readwrite " <= line then TopicLine(true, true, line[16..])
    else if "topic read " <= line then TopicLine(true, false, line[11..])
    else if "topic write " <= line then TopicLine(false, true, line[12..])
    else Ignored
  }

  predicate Covers(line: Line, access: Access, topic: string) {
    line.TopicLine? && (if access == Read then line.read else line.write) && Matches(line.filter, topic)
  }

  /** Whether the lines grant `name` the access, read inside `section`. Lines outside every
      user section are for anonymous clients: `name` is None for them. */
  predicate Grants(lines: seq<string>, section: Option<string>, name: Option<string>, access: Access, topic: string)
    decreases |lines|
  {
    if lines == [] then false
    else
      match ParseLine(lines[0])
      case UserLine(n) => Grants(lines[1..], Some(n), name, access, topic)
      case line =>
        (section == name && Covers(line, access, topic)) || Grants(lines[1..], section, name, access, topic)
  }

  // -- what is printed ----------------------------------------------------------------

  /** A topic line before printing: the levels of its filter, and whether /# follows. */
  datatype Permit = Permit(read: bool, write: bool, levels: seq<string>, subtree: bool)

  datatype Section = Section(name: string, permits: seq<Permit>)

  function PermitLine(p: Permit): string
    requires p.levels != []
  {
    (if p.read && p.write then "topic readwrite " else if p.read then "topic read " else "topic write ")
    + Join(if p.subtree then p.levels + ["#"] else p.levels)
  }

  predicate Printable(p: Permit) {
    && p.levels != [] && (p.read || p.write)
    && NoHash(p.levels) && p.levels[0] != "+"
    && forall i :: 0 <= i < |p.levels| ==> IsLevel(p.levels[i])
  }

  predicate AllPrintable(sections: seq<Section>) {
    forall i, j :: 0 <= i < |sections| && 0 <= j < |sections[i].permits| ==> Printable(sections[i].permits[j])
  }

  function PermitLines(permits: seq<Permit>): seq<string>
    requires forall j :: 0 <= j < |permits| ==> Printable(permits[j])
  {
    if permits == [] then []
    else
      assert Printable(permits[0]);
      [PermitLine(permits[0])] + PermitLines(permits[1..])
  }

  function SectionLines(sections: seq<Section>): seq<string>
    requires AllPrintable(sections)
  {
    if sections == [] then []
    else
      ["user " + sections[0].name] + PermitLines(sections[0].permits) + [""] + SectionLines(sections[1..])
  }

  // -- what a printed section means ------------------------------------------------------

  predicate Permits(p: Permit, access: Access, topic: string) {
    && (if access == Read then p.read else p.write)
    && Starts(p.levels, Split(topic))
    && (p.subtree || |p.levels| == |Split(topic)|)
  }

  ghost predicate SectionAllows(s: Section, name: Option<string>, access: Access, topic: string) {
    name == Some(s.name) && exists j :: 0 <= j < |s.permits| && Permits(s.permits[j], access, topic)
  }

  ghost predicate SomeSection(sections: seq<Section>, name: Option<string>, access: Access, topic: string) {
    exists i :: 0 <= i < |sections| && SectionAllows(sections[i], name, access, topic)
  }

  lemma SomeSectionOfBoth(a: seq<Section>, b: seq<Section>, name: Option<string>, access: Access, topic: string)
    ensures SomeSection(a + b, name, access, topic)
       <==> SomeSection(a, name, access, topic) || SomeSection(b, name, access, topic)
    ensures AllPrintable(a) && AllPrintable(b) ==> AllPrintable(a + b)
  {
    if i :| 0 <= i < |a| && SectionAllows(a[i], name, access, topic) {
      assert (a + b)[i] == a[i];
    }
    if i :| 0 <= i < |b| && SectionAllows(b[i], name, access, topic) {
      assert (a + b)[|a| + i] == b[i];
    }
  }

  lemma ParsePermit(p: Permit)
    requires Printable(p)
    ensures ParseLine(PermitLine(p))
         == TopicLine(p.read, p.write, Join(if p.subtree then p.levels + ["#"] else p.levels))
  {
    var filter := Join(if p.subtree then p.levels + ["#"] else p.levels);
    var line := PermitLine(p);
    assert line[0] == 't' && "user "[0] == 'u';
    if p.read && p.write {
      assert line[..16] == "topic readwrite " && line[16..] == filter;
    } else if p.read {
      assert line[..11] == "topic read " && line[11..] == filter;
      assert line[10] == ' ' && "topic readwrite "[10] == 'w';
    } else {
      assert line[..12] == "topic write " && line[12..] == filter;
      assert line[6] == 'w' && "topic readwrite "[6] == 'r' && "topic read "[6] == 'r';
    }
  }

  lemma PermitMeaning(p: Permit, access: Access, topic: string)
    requires Printable(p)
    ensures Covers(ParseLine(PermitLine(p)), access, topic) <==> Permits(p, access, topic)
  {
    ParsePermit(p);
    if p.subtree {
      SubtreeFilter(p.levels, topic);
    } else {
      ExactFilter(p.levels, topic);
    }
  }

  lemma ParseUser(name: string)
    ensures ParseLine("user " + name) == UserLine(name)
  {
    assert ("user " + name)[..5] == "user " && ("user " + name)[5..] == name;
  }

  lemma {:induction false} PermitLinesMeaning(
      permits: seq<Permit>, rest: seq<string>, n: string, name: Option<string>, access: Access, topic: string)
    requires forall j :: 0 <= j < |permits| ==> Printable(permits[j])
    ensures Grants(PermitLines(permits) + rest, Some(n), name, access, topic)
       <==> (name == Some(n) && exists j :: 0 <= j < |permits| && Permits(permits[j], access, topic))
            || Grants(rest, Some(n), name, access, topic)
  {
    if permits == [] {
      assert PermitLines(permits) + rest == rest;
    } else {
      var tail := PermitLines(permits[1..]) + rest;
      assert PermitLines(permits) + rest == [PermitLine(permits[0])] + tail;
      ParsePermit(permits[0]);
      PermitMeaning(permits[0], access, topic);
      PermitLinesMeaning(permits[1..], rest, n, name, access, topic);
      assert (exists j :: 0 <= j < |permits| && Permits(permits[j], access, topic))
        <==> Permits(permits[0], access, topic)
             || (exists j :: 0 <= j < |permits[1..]| && Permits(permits[1..][j], access, topic)) by {
        if j :| 0 <= j < |permits| && Permits(permits[j], access, topic) {
          assert j == 0 || permits[1..][j - 1] == permits[j];
        }
      }
    }
  }

  lemma RestIsPrintable(sections: seq<Section>)
    requires AllPrintable(sections) && sections != []
    ensures AllPrintable(sections[1..])
  {
    var rest := sections[1..];
    forall i, j | 0 <= i < |rest| && 0 <= j < |rest[i].permits| ensures Printable(rest[i].permits[j]) {
      assert rest[i] == sections[i + 1];
    }
  }

  lemma FirstSection(
      sections: seq<Section>, before: Option<string>, name: Option<string>, access: Access, topic: string)
    requires AllPrintable(sections) && sections != []
    ensures AllPrintable(sections[1..])
    ensures Grants(SectionLines(sections), before, name, access, topic)
       <==> SectionAllows(sections[0], name, access, topic)
            || Grants(SectionLines(sections[1..]), Some(sections[0].name), name, access, topic)
  {
    var s, rest := sections[0], sections[1..];
    RestIsPrintable(sections);
    var tail := [""] + SectionLines(rest);
    assert SectionLines(sections) == ["user " + s.name] + (PermitLines(s.permits) + tail);
    hide SectionLines, PermitLines, Permits, Grants;
    UserLineOpens(s.name, PermitLines(s.permits) + tail, before, name, access, topic);
    PermitLinesMeaning(s.permits, tail, s.name, name, access, topic);
    BlankGrantsNothing(SectionLines(rest), Some(s.name), name, access, topic);
  }

  lemma UserLineOpens(
      n: string, rest: seq<string>, before: Option<string>, name: Option<string>, access: Access, topic: string)
    ensures Grants(["user " + n] + rest, before, name, access, topic) <==> Grants(rest, Some(n), name, access, topic)
  {
    ParseUser(n);
    assert (["user " + n] + rest)[1..] == rest;
    hide ParseLine;
  }

  lemma BlankGrantsNothing(
      rest: seq<string>, before: Option<string>, name: Option<string>, access: Access, topic: string)
    ensures Grants([""] + rest, before, name, access, topic) <==> Grants(rest, before, name, access, topic)
  {
    assert ParseLine("") == Ignored;
    assert ([""] + rest)[1..] == rest;
    hide ParseLine;
  }

  lemma FirstOfSections(sections: seq<Section>, name: Option<string>, access: Access, topic: string)
    requires sections != []
    ensures SomeSection(sections, name, access, topic)
       <==> SectionAllows(sections[0], name, access, topic) || SomeSection(sections[1..], name, access, topic)
  {
    hide SectionAllows;
    SomeSectionOfBoth([sections[0]], sections[1..], name, access, topic);
    assert sections == [sections[0]] + sections[1..];
    assert SomeSection([sections[0]], name, access, topic) <==> SectionAllows([sections[0]][0], name, access, topic);
  }

  /** A printed file grants what its sections allow, and nothing else: in particular an
      anonymous client, who has no section, is granted nothing. */
  lemma {:induction false} FileMeansSections(
      sections: seq<Section>, before: Option<string>, name: Option<string>, access: Access, topic: string)
    requires AllPrintable(sections)
    ensures Grants(SectionLines(sections), before, name, access, topic)
       <==> SomeSection(sections, name, access, topic)
    decreases |sections|
  {
    if sections != [] {
      hide *;
      FirstSection(sections, before, name, access, topic);
      FirstOfSections(sections, name, access, topic);
      FileMeansSections(sections[1..], Some(sections[0].name), name, access, topic);
    }
  }
}
