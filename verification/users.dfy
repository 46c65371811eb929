/** The user profile record stored under `users/{uid}`. Its decoding from a
    document (`ChatUser.init(data:)`) is not part of this model: callers hand
    over already-decoded profiles. */
module Users {

  datatype ChatUser = ChatUser(uid: string, email: string, profileImageURL: string)
}
