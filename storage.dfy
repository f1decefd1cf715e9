/** How an S3 object is addressed over HTTPS: the virtual-hosted style URL
    `https://<bucket>.s3.<region>.amazonaws.com/<key>`. The build server and
    the reverse proxy each spell out the URLs of the deployment bucket; this
    module is the yardstick they are compared against. */
module Storage {

  /** The host name of a bucket. */
  function VirtualHost(bucket: string, region: string): string
  {
    bucket + ".s3." + region + ".amazonaws.com"
  }

  /** The public URL of the object `key` of `bucket`. */
  function ObjectUrl(bucket: string, region: string, key: string): string
  {
    "https://" + VirtualHost(bucket, region) + "/" + key
  }
}
