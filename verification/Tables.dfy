/** Rows that several components read and write. */
module Tables {

  // One subscriber's match of one occurrence of a job, as a row of the notification tables.
  datatype Match = Match(id: nat, subscriber: string, occurrence: nat, job: nat, reposted: bool, discoveredAt: int)
}
