/** The part of the filesystem the core touches. */
module Storage {

  /** Every file, by path, as the sequence of its lines (each without its line terminator). */
  class FileSystem {
    var files: map<string, seq<string>>

    constructor (files: map<string, seq<string>>)
      ensures this.files == files
    {
      this.files := files;
    }
  }
}
