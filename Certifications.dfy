/** The certifications section: six certification cards, keyed by name,
    revealed by the section's latch and staggered by list position. */
module Certifications {
  import opened Reveal

  /** A certification's `name` (its card key) and `link`. */
  datatype Certification = Certification(name: string, link: string)

  const AllCertifications: seq<Certification> := [
    Certification("AWS Certified Developer - Associate", "#"),
    Certification("Spring Framework for Java Developers", "#"),
    Certification("Java Multithreading, Concurrency & Performance Optimization", "#"),
    Certification("Architecting with Google Kubernetes Engine", "#"),
    Certification("Modern React with Redux", "#"),
    Certification("Building Scalable Java Microservices with Spring Boot and Spring Cloud", "#")
  ]

  /** The card keys: certification names, in list order. */
  function Names(certs: seq<Certification>): seq<string>
  {
    seq(|certs|, i requires 0 <= i < |certs| => certs[i].name)
  }

  /** The six names are pairwise distinct, so every card has its own key. */
  lemma NamesAreDistinctKeys()
    ensures |Names(AllCertifications)| == 6
    ensures forall i, j :: 0 <= i < j < |AllCertifications| ==>
      Names(AllCertifications)[i] != Names(AllCertifications)[j]
  {
    var n := Names(AllCertifications);
    assert |n[0]| == 35 && |n[1]| == 36 && |n[2]| == 59;
    assert |n[3]| == 42 && |n[4]| == 23 && |n[5]| == 70;
  }

  /** The heading and the intro line. */
  const HeaderBlocks: seq<Block> := [
    Block("heading", "animate-fade-in-up", 0),
    Block("intro", "animate-fade-in-up", 2)
  ]

  /** Card `i` with delay `0.4 + i * 0.1` s. */
  function CardBlocks(): seq<Block>
  {
    Staggered(Names(AllCertifications), "animate-scale-in", 4)
  }

  /** The section as rendered for a given `isVisible`: header then cards. */
  function Section(visible: bool): (r: seq<Rendered>)
    ensures |r| == |HeaderBlocks| + |AllCertifications|
    ensures forall i :: 0 <= i < |r| ==> (r[i].cls == HiddenClass <==> !visible)
    ensures forall i :: 0 <= i < |AllCertifications| ==>
      r[|HeaderBlocks| + i].key == AllCertifications[i].name &&
      r[|HeaderBlocks| + i].delayTenths == 4 + i
  {
    RenderRevealsIffVisible(visible, HeaderBlocks + CardBlocks());
    Render(visible, HeaderBlocks + CardBlocks())
  }

  /** The section stays hidden until an intersecting entry arrives. */
  lemma HiddenUntilIntersecting(entries: seq<bool>)
    requires !(true in entries)
    ensures Section(Latch(false, entries)) == Section(false)
  {
    LatchIsAnyIntersecting(false, entries);
  }

  /** After an intersecting entry the section is revealed, and it stays
      revealed for every later entry, whatever that entry reports. */
  lemma RevealedOnceForAll(before: seq<bool>, later: seq<bool>)
    requires true in before
    ensures Section(Latch(false, before + later)) == Section(true)
  {
    LatchAppend(false, before, later);
    LatchIsAnyIntersecting(false, before);
    LatchMonotone(later);
  }

  /** The mounted certifications section: its only state is the reveal
      latch (`threshold: 0.2`). */
  class CertificationsSection {
    const latch: RevealLatch

    constructor ()
      ensures fresh(latch) && latch.thresholdPercent == 20
      ensures !latch.isVisible && !latch.observing
    {
      latch := new RevealLatch(20);
    }

    /** The header and the cards as rendered from the latch's flag: all
        hidden before the section has been seen, all revealed after, each
        card keyed by its certification's name with delay `0.4 + i * 0.1` s. */
    function View(): (r: seq<Rendered>)
      reads latch
      ensures |r| == |HeaderBlocks| + |AllCertifications|
      ensures forall i :: 0 <= i < |r| ==> (r[i].cls == HiddenClass <==> !latch.isVisible)
      ensures forall i :: 0 <= i < |AllCertifications| ==>
        r[|HeaderBlocks| + i].key == AllCertifications[i].name &&
        r[|HeaderBlocks| + i].delayTenths == 4 + i
    {
      Section(latch.isVisible)
    }
  }
}
