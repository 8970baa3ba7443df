/** The messages of kim's images service (pkg/apis/services/images/v1alpha1) that the modelled
    handlers read and write. */
module ImagesApi {
  import opened Outcomes

  /** A CRI image spec: the image reference and its optional annotations. */
  datatype ImageSpec = ImageSpec(image: string, annotations: Option<Labels>)

  /** One entry of a progress response. */
  datatype ImageStatus = ImageStatus(status: string, ref: string, offset: int, total: int, startedAt: int, updatedAt: int)

  /** What the CRI ImageStatus call reports about an image. */
  datatype CriImage = CriImage(id: string, repoTags: seq<string>)

  /** An ImageProgressResponse: the statuses sent in one message. */
  type Batch = seq<ImageStatus>
}
