/**
 * What the two pipelines do outside themselves: the calls they make, kept
 * as a trace, and the local file system that holds the temporary audio.
 */
module Environment {
  import VideoId

  /** One call into a collaborator, with the arguments that matter. */
  datatype Call =
    | CacheGet(key: string)
    | CacheSet(key: string, timeout: nat)
    | FetchCaptions(videoId: string, lang: string)
    | DownloadAudio(url: VideoId.Url)
    | Transcribe(audioFile: string)
    | RemoveFile(audioFile: string)
    | GenerateContent(model: string, prompt: string)

  /** The working directory's files, as far as the temporary audio is concerned. */
  class FileSystem {
    var files: set<string>

    constructor (initial: set<string>)
      ensures files == initial
    {
      files := initial;
    }

    /** `os.path.exists(path)`. */
    predicate Exists(path: string)
      reads this
    {
      path in files
    }

    /** The downloader writes the files `paths`. */
    method Create(paths: set<string>)
      modifies this
      ensures files == old(files) + paths
    {
      files := files + paths;
    }

    /** `os.remove(path)`; `succeeds` is the operating system's answer, and a failed removal changes nothing. */
    method Remove(path: string, succeeds: bool)
      modifies this
      ensures files == if succeeds then old(files) - {path} else old(files)
    {
      if succeeds {
        files := files - {path};
      }
    }
  }
}
