/** What the hooks see of Firebase Auth. */
module Auth {
  /** A signed-in Firebase user, reduced to its uid. */
  datatype User = User(uid: string)
}
