/** The records the client passes around (src/types/index.ts). Optional
    properties are `Option`s; numbers the client only displays are naturals. */
module Types {
  import opened Strings

  datatype VideoInfo = VideoInfo(
    id: string,
    title: string,
    description: Option<string>,
    channel: string,
    channelId: string,
    thumbnail: string,
    publishedAt: string,
    viewCount: Option<nat>,
    likeCount: Option<nat>,
    duration: Option<string>,
    summary: Option<string>,
    url: Option<string>)

  datatype Creator = Creator(
    id: string,
    name: string,
    profilePicture: Option<string>,
    channelUrl: string,
    subscriberCount: Option<nat>,
    videoCount: Option<nat>,
    description: Option<string>)

  datatype User = User(
    id: string,
    username: string,
    email: string,
    avatar: Option<string>,
    favorites: Option<seq<string>>)

  datatype LoginCredentials = LoginCredentials(username: string, password: string)

  datatype AuthResponse = AuthResponse(user: User, token: string)

  datatype ResetPasswordRequest = ResetPasswordRequest(
    currentPassword: string,
    newPassword: string,
    confirmPassword: string)
}
