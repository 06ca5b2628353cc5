/** The three enumerations of the document pipeline and their stored integer codes. */
module Enums {
  import opened Wrappers

  datatype ProcessingMode = RealTime | Batch {
    function Code(): int {
      match this
      case RealTime => 0
      case Batch => 1
    }
  }

  function ProcessingModeFromCode(c: int): (m: Option<ProcessingMode>)
    ensures m.Some? <==> c in {0, 1}
  {
    if c == 0 then Some(RealTime) else if c == 1 then Some(Batch) else None
  }

  /** The lifecycle state of one request. */
  datatype ProcessingStatus = Pending | Queued | Processing | Completed | Failed | BatchSubmitted {
    function Code(): int {
      match this
      case Pending => 0
      case Queued => 1
      case Processing => 2
      case Completed => 3
      case Failed => 4
      case BatchSubmitted => 5
    }
  }

  function ProcessingStatusFromCode(c: int): (s: Option<ProcessingStatus>)
    ensures s.Some? <==> 0 <= c <= 5
  {
    match c
    case 0 => Some(Pending)
    case 1 => Some(Queued)
    case 2 => Some(Processing)
    case 3 => Some(Completed)
    case 4 => Some(Failed)
    case 5 => Some(BatchSubmitted)
    case _ => None
  }

  datatype DocumentType = Pdf | Word | Image | Html | Text | Unknown {
    function Code(): int {
      match this
      case Pdf => 0
      case Word => 1
      case Image => 2
      case Html => 3
      case Text => 4
      case Unknown => 99
    }
  }

  function DocumentTypeFromCode(c: int): (t: Option<DocumentType>)
    ensures t.Some? <==> c in {0, 1, 2, 3, 4, 99}
  {
    match c
    case 0 => Some(Pdf)
    case 1 => Some(Word)
    case 2 => Some(Image)
    case 3 => Some(Html)
    case 4 => Some(Text)
    case 99 => Some(Unknown)
    case _ => None
  }

  /** Decoding inverts the code of every value, so the codes within each enumeration are pairwise distinct. */
  lemma CodesRoundTrip(m: ProcessingMode, s: ProcessingStatus, t: DocumentType)
    ensures ProcessingModeFromCode(m.Code()) == Some(m)
    ensures ProcessingStatusFromCode(s.Code()) == Some(s)
    ensures DocumentTypeFromCode(t.Code()) == Some(t)
  {
  }

  /** Consequence of the round trip: a code determines the value. */
  lemma CodesInjective(s1: ProcessingStatus, s2: ProcessingStatus, t1: DocumentType, t2: DocumentType,
                       m1: ProcessingMode, m2: ProcessingMode)
    ensures s1.Code() == s2.Code() ==> s1 == s2
    ensures t1.Code() == t2.Code() ==> t1 == t2
    ensures m1.Code() == m2.Code() ==> m1 == m2
  {
    CodesRoundTrip(m1, s1, t1);
    CodesRoundTrip(m2, s2, t2);
  }
}
