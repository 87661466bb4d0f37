/** How far along a job is, as its client reads it. */
module Progress {
  datatype Stage = Queued | Analysing | Separating | Reconstructing | Writing | Done | Failed | Cancelled {
    predicate Terminal() {
      this in {Done, Failed, Cancelled}
    }
  }
}
