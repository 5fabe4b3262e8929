/** The run configuration, one field per setting, and the values the
    configuration file ships with. */
module Settings {

  datatype Config = Config(
    hostname: string,
    port: int,
    username: string,
    password: string,
    remotePath: string,
    sizeMb: real,      // the actual size of the remote file, in MB
    numThreads: int,
    duration: real)    // seconds

  /** The shipped configuration: placeholders for the server and the file. */
  const Defaults: Config := Config(
    "your_sftp_host", 22, "your_username", "your_password",
    "/path/to/your/large_file.bin", 100.0, 20, 60.0)
}
