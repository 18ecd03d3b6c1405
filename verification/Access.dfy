/** Access rights and the groups the server checks them against. */
module Access {

  datatype Rights = Write | WriteTracked | CommentRight | ReviewTracked | Review | Read | ReadWithoutComments

  const COMMENT_ONLY := {Review, CommentRight}
  const CAN_UPDATE_DOCUMENT := {Write, WriteTracked, Review, ReviewTracked, CommentRight}
  const CAN_COMMUNICATE := {Read, Write, CommentRight, WriteTracked}
  const OWN_COMMENTS_ONLY := {Review, ReviewTracked}

  /** Best first. */
  const RIGHTS_ORDER := [Write, WriteTracked, CommentRight, ReviewTracked, Review, Read, ReadWithoutComments]
}
