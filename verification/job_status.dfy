/** The life cycle of a job as its status shows it. */
module JobStatus {

  datatype Status = New | Queued | Running | Success | Failed | Aborted {

    predicate Finished() {
      Success? || Failed? || Aborted?
    }

    predicate Bad() {
      Failed? || Aborted?
    }

    /** The comparison `status <= Running` of the source. */
    predicate NotYetFinished() {
      New? || Queued? || Running?
    }
  }
}
