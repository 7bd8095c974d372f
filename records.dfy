/** The complaint record the components receive from the API. */
module Records {
  import opened Wrappers

  const PENDING := "PENDING"
  const IN_PROGRESS := "IN_PROGRESS"
  const RESOLVED := "RESOLVED"
  const REJECTED := "REJECTED"

  /** The four status values a stored complaint can hold. The components
      compare `status` as a plain string, so other strings are possible inputs. */
  predicate IsKnownStatus(s: string)
  {
    s == PENDING || s == IN_PROGRESS || s == RESOLVED || s == REJECTED
  }

  /** The four status strings are pairwise different. */
  lemma StatusesDistinct()
    ensures PENDING != IN_PROGRESS && PENDING != RESOLVED && PENDING != REJECTED
    ensures IN_PROGRESS != RESOLVED && IN_PROGRESS != REJECTED && RESOLVED != REJECTED
  {
    assert |PENDING| == 7 && |IN_PROGRESS| == 11 && |RESOLVED| == 8 && |REJECTED| == 8;
    assert RESOLVED[2] != REJECTED[2];
  }

  /** A complaint as the client sees it; instants are integers
      (milliseconds since the epoch). */
  datatype Complaint = Complaint(
    id: string,
    trackingId: string,
    title: string,
    description: string,
    category: string,
    agency: string,
    location: string,
    status: string,
    createdAt: int,
    updatedAt: Option<int>,
    response: Option<string>,
    responseDate: Option<int>)
}
