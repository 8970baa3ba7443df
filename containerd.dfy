/** containerd as the agent sees it: two namespaces, the build executor's ("buildkit") and the servable
    one ("k8s.io"), each with a content store (digest to blob) and an image store (name to record). */
module Containerd {
  import opened Outcomes
  import opened Stores

  /** An OCI descriptor: what a manifest, an index or an image record points at. */
  datatype Descriptor = Descriptor(mediaType: string, digest: string, size: int)

  /** A blob of a content store with its labels. For a manifest or an index, `children` are the
      descriptors its bytes decode to; for any other blob it is empty. */
  datatype Blob = Blob(digest: string, size: int, labels: Labels, children: seq<Descriptor>)

  datatype Image = Image(name: string, labels: Labels, target: Descriptor)

  const DockerManifest: string := "application/vnd.docker.distribution.manifest.v2+json"
  const DockerManifestList: string := "application/vnd.docker.distribution.manifest.list.v2+json"
  const OciManifest: string := "application/vnd.oci.image.manifest.v1+json"
  const OciIndex: string := "application/vnd.oci.image.index.v1+json"

  /** The media types whose blobs images.Children reads to find further descriptors. */
  predicate IsParent(mediaType: string) {
    mediaType == DockerManifest || mediaType == DockerManifestList || mediaType == OciManifest || mediaType == OciIndex
  }

  function BlobDigest(b: Blob): string { b.digest }
  function ImageName(i: Image): string { i.name }

  ghost predicate ContentStore(st: Store<string, Blob>) reads st {
    st.Valid() && forall b :: st.keyOf(b) == b.digest
  }

  ghost predicate ImageStore(st: Store<string, Image>) reads st {
    st.Valid() && forall i :: st.keyOf(i) == i.name
  }

  /** Content is addressed by its digest, so no blob can reference itself, however indirectly: some
      ranking of digests decreases from every stored manifest or index to each of its children. */
  ghost predicate Acyclic(content: map<string, Blob>, rank: string -> nat) {
    forall k | k in content :: forall c | c in content[k].children :: rank(c.digest) < rank(k)
  }

  /** A containerd client: the stores of the two namespaces the agent works with. */
  class Client {
    const buildkitContent: Store<string, Blob>
    const buildkitImages: Store<string, Image>
    const k8sContent: Store<string, Blob>
    const k8sImages: Store<string, Image>
    /** A witness that the source content graph is acyclic. */
    ghost const rank: string -> nat

    ghost predicate Valid()
      reads this, buildkitContent, buildkitImages, k8sContent, k8sImages
    {
      && ContentStore(buildkitContent) && ImageStore(buildkitImages)
      && ContentStore(k8sContent) && ImageStore(k8sImages)
      && buildkitContent != k8sContent && buildkitImages != k8sImages
      && Acyclic(buildkitContent.objects, rank)
    }

    constructor (buildkitContent: map<string, Blob>, buildkitImages: map<string, Image>, ghost rank: string -> nat)
      requires forall k | k in buildkitContent :: buildkitContent[k].digest == k
      requires forall k | k in buildkitImages :: buildkitImages[k].name == k
      requires Acyclic(buildkitContent, rank)
      ensures Valid() && this.rank == rank
      ensures this.buildkitContent.objects == buildkitContent && this.buildkitImages.objects == buildkitImages
      ensures k8sContent.objects == map[] && k8sImages.objects == map[]
    {
      this.buildkitContent := new Store(BlobDigest, buildkitContent);
      this.buildkitImages := new Store(ImageName, buildkitImages);
      this.k8sContent := new Store(BlobDigest, map[]);
      this.k8sImages := new Store(ImageName, map[]);
      this.rank := rank;
    }
  }
}
