/** The records of the name engine: names, votes, groups and the last shown pair. */
module Types {
  import opened Wrappers

  datatype Gender = Boy | Girl

  /** 0: the left name won, 1: the right name won, 2: a tie. */
  type VoteResult = r: int | 0 <= r <= 2

  /** A votable name; `elo` is its current rating. */
  datatype Name = Name(id: string, name: string, gender: Gender, elo: real)

  /**
    One comparison.  The timestamp, an ISO date string in the source, is the
    instant in milliseconds; `groupId` is absent for a personal vote.
  */
  datatype Vote = Vote(userId: string, timestamp: int, name1Id: string, name2Id: string,
                       result: VoteResult, groupId: Option<string>)

  datatype Group = Group(id: string, name: string, createdBy: string, members: seq<string>)

  /** The last ordered pair of ids shown for a gender, or none. */
  datatype LastNamePair = LastNamePair(gender: Gender, pair: Option<(string, string)>)
}
